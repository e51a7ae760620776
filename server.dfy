/**
 * The Express handlers of backend/index.js as methods of one `Server`
 * object whose fields are the two collections, the upload directory and the
 * two secrets read from the environment. Every mutating handler keeps the
 * store `Valid` and states its whole effect as one of the `Store` effects.
 */
module Api {
  import opened Wrappers
  import opened Text
  import opened Bcrypt
  import opened Schema
  import opened Jwt
  import opened Store
  import opened Guards
  import Seqs

  /** A route or body parameter that should hold an ObjectId: one, or text Mongoose cannot cast. */
  datatype IdArg = Ref(id: Id) | Malformed

  /** The `token` cookie a response sets: a signed token, or the empty string logout writes. */
  datatype Cookie = Cookie(token: Option<Token>, httpOnly: bool)

  /**
   * The status of a response and the cookie it sets; `NoResponse` when the
   * handler throws inside a callback and never answers.
   */
  datatype Response = Response(status: nat, cookie: Option<Cookie>) | NoResponse

  /** The body of `POST /api/register/user`. */
  datatype UserForm = UserForm(
    fullname: string, email: string, contact: string, password: string,
    locality: string, city: string, pincode: string, state: string, country: string,
    role: Option<string>)

  /** The body of `POST /api/register/admin`. */
  datatype AdminForm = AdminForm(
    fullname: string, email: string, contact: string, password: string,
    role: Option<string>, code: Option<string>)

  /** The body of `POST /api/uploadpet`. */
  datatype PetForm = PetForm(
    name: string, species: string, breed: string, color: string, weight: NumberField,
    nature: Option<string>, gender: string, owner: IdArg, description: string)

  /** The body of `PUT /api/update-profile`; `photoAction` is sent but never read. */
  datatype ProfileForm = ProfileForm(
    id: IdArg, fullname: string, email: string, contact: string, locality: string,
    city: string, pincode: string, state: string, country: string, photoAction: string)

  /** A user document under `.select('-password')`. */
  datatype Profile = Profile(
    id: Id, fullname: string, email: string, contact: string, locality: string,
    city: string, state: string, country: string, pincode: string, role: string,
    profilepic: string, pets: seq<Id>)

  /** The owner fields `populate('owner', ...)` joins into a pet listing. */
  datatype OwnerCard = OwnerCard(
    id: Id, fullname: string, contact: string, email: string, locality: string,
    city: string, state: string, country: string, pincode: string)

  /** One pet of `GET /api/pets` with its owner joined in (null when the owner is gone). */
  datatype Listing = Listing(pet: Pet, owner: Option<OwnerCard>)

  const Ok: nat := 200
  const Created: nat := 201
  const BadRequest: nat := 400
  const NotFound: nat := 404

  function Status(s: nat): Response {
    Response(s, None)
  }

  /** The cookie login and registration set: an httpOnly token carrying `{id, email}`. */
  function SessionCookie(id: Id, email: string, secret: string): Cookie {
    Cookie(Some(Sign(Claims(id, email), secret)), true)
  }

  /** `req.file ? req.file.filename : ''`. */
  function PicName(file: Option<string>): string {
    file.GetOr("")
  }

  /** The files multer wrote for this request. */
  function FileSet(file: Option<string>): set<string> {
    if file.Some? then {file.value} else {}
  }

  /** The user document `users.create` builds on the user-registration route. */
  function NewUser(form: UserForm, file: Option<string>): (u: User)
    ensures UserNormalized(u) && u.pets == []
    ensures Compare(form.password, u.password)
    ensures u.email == NormalizeEmail(form.email) && u.contact == form.contact
    ensures u.role == form.role.GetOr(UserRole) && u.profilepic == PicName(file)
    ensures u.fullname == Trim(form.fullname)
    ensures u.locality == Trim(form.locality) && u.city == Trim(form.city) &&
            u.state == Trim(form.state) && u.country == Trim(form.country) &&
            u.pincode == Trim(form.pincode)
  {
    CompareOwnHash(form.password);
    CastUser(form.fullname, form.email, Hash(form.password), form.contact, form.locality,
             form.city, form.state, form.country, form.pincode, form.role, PicName(file))
  }

  /** The user document `users.create` builds on the admin-registration route: no address fields. */
  function NewAdmin(form: AdminForm, file: Option<string>): (u: User)
    ensures UserNormalized(u) && u.pets == []
    ensures Compare(form.password, u.password)
    ensures u.email == NormalizeEmail(form.email) && u.contact == form.contact
    ensures u.role == form.role.GetOr(UserRole) && u.profilepic == PicName(file)
    ensures u.fullname == Trim(form.fullname)
    ensures u.locality == "" && u.city == "" && u.state == "" && u.country == "" && u.pincode == ""
  {
    CompareOwnHash(form.password);
    CastUser(form.fullname, form.email, Hash(form.password), form.contact, "", "", "", "", "",
             form.role, PicName(file))
  }

  /**
   * The document `findByIdAndUpdate` leaves: a `'user'` gets name, email,
   * contact, address and picture replaced; any other role only name, email,
   * contact and picture. Password, role and pet list are never touched.
   */
  function Patched(u: User, form: ProfileForm, pic: string): (r: User)
    ensures UserNormalized(u) ==> UserNormalized(r)
    ensures r.password == u.password && r.role == u.role && r.pets == u.pets
    ensures r.fullname == Trim(form.fullname)
    ensures r.email == NormalizeEmail(form.email) && r.contact == form.contact && r.profilepic == pic
    ensures u.role == UserRole ==>
      r.locality == Trim(form.locality) && r.city == Trim(form.city) && r.state == Trim(form.state) &&
      r.country == Trim(form.country) && r.pincode == Trim(form.pincode)
    ensures u.role != UserRole ==>
      r.locality == u.locality && r.city == u.city && r.state == u.state &&
      r.country == u.country && r.pincode == u.pincode
  {
    TrimAlwaysTrimmed();
    var common := u.(fullname := Trim(form.fullname), email := NormalizeEmail(form.email),
                     contact := form.contact, profilepic := pic);
    if u.role == UserRole then
      common.(locality := Trim(form.locality), city := Trim(form.city),
              pincode := Trim(form.pincode), state := Trim(form.state),
              country := Trim(form.country))
    else common
  }

  function ProfileOf(id: Id, u: User): Profile {
    Profile(id, u.fullname, u.email, u.contact, u.locality, u.city, u.state, u.country,
            u.pincode, u.role, u.profilepic, u.pets)
  }

  /** `select('-password')` drops exactly the password: two users agree on it iff they differ at most there. */
  lemma ProfileDropsOnlyPassword(id: Id, u: User, v: User)
    ensures ProfileOf(id, u) == ProfileOf(id, v) <==> u.(password := v.password) == v
  {
  }

  function CardOf(id: Id, u: User): OwnerCard {
    OwnerCard(id, u.fullname, u.contact, u.email, u.locality, u.city, u.state, u.country, u.pincode)
  }

  /** A token issued at login or registration authenticates as that user on every guarded route. */
  lemma SessionAuthenticates(id: Id, email: string, secret: string)
    ensures VerifyToken(SessionCookie(id, email, secret).token, secret) == Next(Claims(id, email))
  {
    VerifySigned(Claims(id, email), secret);
  }

  /**
   * The outcome of registering the document `u` against the store `before`,
   * whose next fresh id is `next`: 400 when its email or contact is taken;
   * no response when the schema refuses it; otherwise 201 with a session
   * cookie for the new id, and `after` holds the new user.
   */
  ghost predicate Registered(before: Db, next: Id, secret: string, u: User,
                             r: Response, created: Option<User>, after: Db)
  {
    if EmailTaken(before.users, u.email) || ContactTaken(before.users, u.contact) then
      r == Status(BadRequest) && created == None && after == before
    else if !UserValid(u) then
      r == NoResponse && created == None && after == before
    else
      && r == Response(Created, Some(SessionCookie(next, u.email, secret)))
      && created == Some(u)
      && after == InsertUser(before, next, u)
  }

  /**
   * With `ADMIN_SECRET_CODE` unset, `code !== undefined` is false for a
   * body without a code, so the admin route's gate lets it through; a body
   * that also says `role: 'admin'`, with a free email and contact and valid
   * fields, creates an admin account. The last requires is the admin route's
   * outcome for a request that passes the gate.
   */
  lemma UnsetAdminCodeAdmitsAnyone(before: Db, next: Id, secret: string, form: AdminForm,
                                   file: Option<string>, adminCode: Option<string>,
                                   r: Response, created: Option<User>, after: Db)
    requires adminCode.None? && form.code.None? && form.role == Some(AdminRole)
    requires !EmailTaken(before.users, NormalizeEmail(form.email)) && !ContactTaken(before.users, form.contact)
    requires UserValid(NewAdmin(form, file))
    requires form.code == adminCode ==> Registered(before, next, secret, NewAdmin(form, file), r, created, after)
    ensures form.code == adminCode
    ensures r == Response(Created, Some(SessionCookie(next, NormalizeEmail(form.email), secret)))
    ensures created.Some? && created.value.role == AdminRole
    ensures next in after.users && after.users[next].role == AdminRole
  {
  }

  class Server {
    var users: map<Id, User>
    var pets: map<Id, Pet>
    /** The filenames present in `public/uploads`. */
    var uploads: set<string>
    /** The next ObjectId handed out; every id in use is below it. */
    var nextId: Id
    /** `JWT_SECRET`. */
    const secret: string
    /** `ADMIN_SECRET_CODE`, None when unset. */
    const adminCode: Option<string>

    function State(): Db
      reads this`users, this`pets
    {
      Db(users, pets)
    }

    ghost predicate Valid()
      reads this`users, this`pets, this`nextId
    {
      Consistent(State()) &&
      (forall u :: u in users ==> u < nextId) &&
      (forall p :: p in pets ==> p < nextId)
    }

    constructor (secret: string, adminCode: Option<string>)
      ensures Valid()
      ensures users == map[] && pets == map[] && uploads == {}
      ensures this.secret == secret && this.adminCode == adminCode
    {
      users := map[];
      pets := map[];
      uploads := {};
      nextId := 0;
      this.secret := secret;
      this.adminCode := adminCode;
    }

    /** multer's `upload.single(...)`: a chosen file is written to `public/uploads`. */
    method Receive(file: Option<string>)
      modifies this`uploads
      ensures uploads == old(uploads) + FileSet(file)
    {
      if file.Some? {
        uploads := uploads + {file.value};
      }
    }

    /** `users.findOne({email})`; the email setters apply to the filter too. */
    method FindByEmail(email: string) returns (found: Option<Id>)
      ensures found.None? <==> !EmailTaken(users, NormalizeEmail(email))
      ensures found.Some? ==> found.value in users && users[found.value].email == NormalizeEmail(email)
    {
      var key := NormalizeEmail(email);
      if EmailTaken(users, key) {
        var u :| u in users && users[u].email == key;
        found := Some(u);
      } else {
        found := None;
      }
    }

    /** Writes back both collections, which the caller has shown consistent, and the id counter. */
    method Commit(after: Db, next: Id)
      requires Consistent(after)
      requires forall u :: u in after.users ==> u < next
      requires forall p :: p in after.pets ==> p < next
      modifies this`users, this`pets, this`nextId
      ensures Valid() && State() == after && nextId == next
    {
      users, pets, nextId := after.users, after.pets, next;
    }

    /** `users.create(u)` under a fresh id. */
    method Insert(u: User) returns (id: Id)
      requires Valid() && UserWellFormed(u) && u.pets == []
      requires !EmailTaken(users, u.email) && !ContactTaken(users, u.contact)
      modifies this`users, this`nextId
      ensures Valid()
      ensures id == old(nextId) && nextId == id + 1
      ensures State() == InsertUser(old(State()), id, u)
    {
      id := nextId;
      InsertUserPreserves(State(), id, u);
      users := users[id := u];
      nextId := nextId + 1;
    }

    /** `pets.create(pet)` under a fresh id, appended to its owner's list. */
    method Adopt(pet: Pet) returns (id: Id)
      requires Valid() && pet.owner in users && PetWellFormed(pet)
      modifies this`users, this`pets, this`nextId
      ensures Valid()
      ensures id == old(nextId)
      ensures State() == AddPet(old(State()), id, pet)
    {
      id := nextId;
      AddPetPreserves(State(), id, pet);
      Commit(AddPet(State(), id, pet), id + 1);
    }

    /** `pets.findByIdAndDelete(pid)` once the id is pulled from its owner's list. */
    method Drop(pid: Id)
      requires Valid() && pid in pets
      modifies this`users, this`pets, this`nextId
      ensures Valid()
      ensures old(pets)[pid].owner in old(users)
      ensures State() == RemovePet(old(State()), pid)
    {
      RemovePetPreserves(State(), pid);
      Commit(RemovePet(State(), pid), nextId);
    }

    /** `findByIdAndUpdate(id, u)` on a user whose pet list is left as it was. */
    method Replace(id: Id, u: User)
      requires Valid() && id in users && UserWellFormed(u) && u.pets == users[id].pets
      requires !TakenByOther(users, id, u.email, u.contact)
      modifies this`users
      ensures Valid()
      ensures State() == UpdateUser(old(State()), id, u)
    {
      UpdateUserPreserves(State(), id, u);
      users := users[id := u];
    }

    /**
     * The part both registration routes share: multer keeps the upload,
     * the email is looked up through the schema's setters and the contact
     * as given, then the document is created, as `Registered` says.
     */
    method Enroll(email: string, u: User, file: Option<string>) returns (r: Response, created: Option<User>)
      requires Valid() && UserNormalized(u) && u.pets == [] && u.email == NormalizeEmail(email)
      modifies this`users, this`nextId, this`uploads
      ensures Valid()
      ensures uploads == old(uploads) + FileSet(file)
      ensures Registered(old(State()), old(nextId), secret, u, r, created, State())
    {
      Receive(file);
      var byEmail := FindByEmail(email);
      var byContact := ContactTaken(users, u.contact);
      if byEmail.Some? || byContact {
        r, created := Status(BadRequest), None;
        return;
      }
      if !UserValid(u) {
        r, created := NoResponse, None;
        return;
      }
      var id := Insert(u);
      r, created := Response(Created, Some(SessionCookie(id, u.email, secret))), Some(u);
    }

    /** `POST /api/register/user`: the upload is kept, then the document is registered. */
    method RegisterUser(form: UserForm, file: Option<string>) returns (r: Response, created: Option<User>)
      requires Valid()
      modifies this
      ensures Valid()
      ensures uploads == old(uploads) + FileSet(file)
      ensures Registered(old(State()), old(nextId), secret, NewUser(form, file), r, created, State())
    {
      r, created := Enroll(form.email, NewUser(form, file), file);
    }

    /**
     * `POST /api/register/admin`: refused with 403 unless the body's code
     * equals `ADMIN_SECRET_CODE`, then registered like a user, without the
     * address fields. The role is whatever the body says (default `'user'`).
     */
    method RegisterAdmin(form: AdminForm, file: Option<string>) returns (r: Response, created: Option<User>)
      requires Valid()
      modifies this
      ensures Valid()
      ensures uploads == old(uploads) + FileSet(file)
      ensures form.code != adminCode ==>
        r == Status(Forbidden) && created == None && State() == old(State())
      ensures form.code == adminCode ==>
        Registered(old(State()), old(nextId), secret, NewAdmin(form, file), r, created, State())
    {
      if form.code != adminCode {
        Receive(file);
        r, created := Status(Forbidden), None;
      } else {
        r, created := Enroll(form.email, NewAdmin(form, file), file);
      }
    }

    /**
     * `POST /api/login`: 400 without both fields, 404 for an unknown email,
     * 400 for a wrong password, and otherwise 200 with a session cookie and
     * the stored document, digest included.
     */
    method Login(email: string, password: string) returns (r: Response, user: Option<User>)
      requires Valid()
      ensures email == "" || password == "" ==> r == Status(BadRequest) && user == None
      ensures email != "" && password != "" && !EmailTaken(users, NormalizeEmail(email)) ==>
        r == Status(NotFound) && user == None
      ensures forall id :: id in users && users[id].email == NormalizeEmail(email) &&
                           email != "" && password != "" ==>
        if Compare(password, users[id].password) then
          r == Response(Ok, Some(SessionCookie(id, users[id].email, secret))) && user == Some(users[id])
        else
          r == Status(BadRequest) && user == None
    {
      if email == "" || password == "" {
        r, user := Status(BadRequest), None;
        return;
      }
      var found := FindByEmail(email);
      if found.None? {
        r, user := Status(NotFound), None;
        return;
      }
      var id := found.value;
      assert Unique(State());
      if Compare(password, users[id].password) {
        r, user := Response(Ok, Some(SessionCookie(id, users[id].email, secret))), Some(users[id]);
      } else {
        r, user := Status(BadRequest), None;
      }
    }

    /** `POST /api/logout`: the cookie is overwritten with '' and no longer authenticates. */
    method Logout() returns (r: Response)
      ensures r.Response? && r.status == Ok && r.cookie.Some?
      ensures VerifyToken(r.cookie.value.token, secret) == Stop(Unauthorized)
    {
      r := Response(Ok, Some(Cookie(None, false)));
    }

    /** `GET /api/users`: the caller's own document without its password. */
    method CurrentUser(cookie: Option<Token>) returns (r: Response, body: Option<Profile>)
      ensures VerifyToken(cookie, secret).Stop? ==> r == Status(Unauthorized) && body == None
      ensures VerifyToken(cookie, secret).Next? ==>
        var id := VerifyToken(cookie, secret).claims.id;
        if id in users then r == Status(Ok) && body == Some(ProfileOf(id, users[id]))
        else r == Status(NotFound) && body == None
    {
      var g := VerifyToken(cookie, secret);
      if g.Stop? {
        r, body := Status(g.status), None;
        return;
      }
      var id := g.claims.id;
      if id in users {
        r, body := Status(Ok), Some(ProfileOf(id, users[id]));
      } else {
        r, body := Status(NotFound), None;
      }
    }

    /** `GET /api/pets/:id`: a user's pet list; a malformed or unknown id fails with 400. */
    method PetIdsOf(cookie: Option<Token>, arg: IdArg) returns (r: Response, ids: Option<seq<Id>>)
      requires Valid()
      ensures VerifyToken(cookie, secret).Stop? ==> r == Status(Unauthorized) && ids == None
      ensures VerifyToken(cookie, secret).Next? ==>
        if arg.Ref? && arg.id in users then r == Status(Ok) && ids == Some(users[arg.id].pets)
        else r == Status(BadRequest) && ids == None
      ensures ids.Some? ==>
        forall i :: 0 <= i < |ids.value| ==> ids.value[i] in pets && pets[ids.value[i]].owner == arg.id
    {
      var g := VerifyToken(cookie, secret);
      if g.Stop? {
        r, ids := Status(g.status), None;
        return;
      }
      if arg.Ref? && arg.id in users {
        assert ListedPetsOwned(State());
        r, ids := Status(Ok), Some(users[arg.id].pets);
      } else {
        r, ids := Status(BadRequest), None;
      }
    }

    /** `GET /api/petdetails/:pet_id`: 200 with the pet, or with null for an unknown id; 500 for a malformed one. */
    method PetDetails(cookie: Option<Token>, arg: IdArg) returns (r: Response, details: Option<Pet>)
      ensures VerifyToken(cookie, secret).Stop? ==> r == Status(Unauthorized) && details == None
      ensures VerifyToken(cookie, secret).Next? && arg.Malformed? ==> r == Status(ServerError) && details == None
      ensures VerifyToken(cookie, secret).Next? && arg.Ref? ==>
        r == Status(Ok) && (details.Some? <==> arg.id in pets) &&
        (details.Some? ==> details.value == pets[arg.id])
    {
      var g := VerifyToken(cookie, secret);
      if g.Stop? {
        r, details := Status(g.status), None;
      } else if arg.Malformed? {
        r, details := Status(ServerError), None;
      } else if arg.id in pets {
        r, details := Status(Ok), Some(pets[arg.id]);
      } else {
        r, details := Status(Ok), None;
      }
    }

    /** `GET /api/pets`: every pet, its owner's public fields joined in; in a valid store no owner is missing. */
    method AllPets(cookie: Option<Token>) returns (r: Response, listing: map<Id, Listing>)
      requires Valid()
      ensures VerifyToken(cookie, secret).Stop? ==> r == Status(Unauthorized) && listing == map[]
      ensures VerifyToken(cookie, secret).Next? ==> r == Status(Ok) && listing.Keys == pets.Keys
      ensures forall p :: p in listing ==>
        && listing[p].pet == pets[p]
        && listing[p].owner.Some?
        && listing[p].owner.value == CardOf(pets[p].owner, users[pets[p].owner])
    {
      var g := VerifyToken(cookie, secret);
      if g.Stop? {
        r, listing := Status(g.status), map[];
        return;
      }
      OwnersExist(State());
      listing := map p | p in pets ::
        Listing(pets[p], if pets[p].owner in users
                         then Some(CardOf(pets[p].owner, users[pets[p].owner])) else None);
      r := Status(Ok);
    }

    /** `GET /api/community`: every user whose role is `'user'`, whole documents (digests included). */
    method Community(cookie: Option<Token>) returns (r: Response, members: map<Id, User>)
      ensures VerifyToken(cookie, secret).Stop? ==> r == Status(Unauthorized) && members == map[]
      ensures VerifyToken(cookie, secret).Next? ==> r == Status(Ok)
      ensures VerifyToken(cookie, secret).Next? ==>
        forall u :: u in members <==> u in users && users[u].role == UserRole
      ensures forall u :: u in members ==> members[u] == users[u]
    {
      var g := VerifyToken(cookie, secret);
      if g.Stop? {
        r, members := Status(g.status), map[];
        return;
      }
      members := map u | u in users && users[u].role == UserRole :: users[u];
      r := Status(Ok);
    }

    /**
     * `POST /api/uploadpet`, reachable without a session: no photo or a
     * malformed owner id fails with 500, an unknown owner with 400, a
     * document the pet schema refuses with 500; otherwise the pet is created
     * and appended to its owner's list.
     */
    method UploadPet(form: PetForm, file: Option<string>) returns (r: Response)
      requires Valid()
      modifies this
      ensures Valid()
      ensures uploads == old(uploads) + FileSet(file)
      ensures file.None? || form.owner.Malformed? ==>
        r == Status(ServerError) && users == old(users) && pets == old(pets)
      ensures file.Some? && form.owner.Ref? && form.owner.id !in old(users) ==>
        r == Status(BadRequest) && users == old(users) && pets == old(pets)
      ensures file.Some? && form.owner.Ref? && form.owner.id in old(users) ==>
        var cast := CastPet(form.name, form.species, form.breed, form.color, form.weight,
                            file.value, form.nature, form.gender, form.description, form.owner.id);
        if cast.None? || !PetValid(cast.value) then
          r == Status(ServerError) && users == old(users) && pets == old(pets)
        else
          && r == Status(Ok)
          && State() == AddPet(old(State()), old(nextId), cast.value)
    {
      Receive(file);
      if file.None? || form.owner.Malformed? {
        r := Status(ServerError);
        return;
      }
      var owner := form.owner.id;
      if owner !in users {
        r := Status(BadRequest);
        return;
      }
      var cast := CastPet(form.name, form.species, form.breed, form.color, form.weight,
                          file.value, form.nature, form.gender, form.description, owner);
      if cast.None? || !PetValid(cast.value) {
        r := Status(ServerError);
        return;
      }
      var id := Adopt(cast.value);
      r := Status(Ok);
    }

    /**
     * `PUT /api/update-profile`: updates the document named by the body's
     * `_id`, whichever user the token names, unless another user holds the
     * email or contact or the schema refuses the result (400). On success
     * the previous picture is deleted from the upload directory.
     */
    method UpdateProfile(cookie: Option<Token>, form: ProfileForm, file: Option<string>)
      returns (r: Response, body: Option<Profile>)
      requires Valid()
      modifies this
      ensures Valid()
      ensures VerifyToken(cookie, secret).Stop? ==>
        r == Status(Unauthorized) && body == None &&
        users == old(users) && pets == old(pets) && uploads == old(uploads)
      ensures VerifyToken(cookie, secret).Next? ==>
        if form.id.Malformed? || form.id.id !in old(users) then
          r == Status(BadRequest) && body == None &&
          users == old(users) && pets == old(pets) && uploads == old(uploads) + FileSet(file)
        else
          var id := form.id.id;
          var u := Patched(old(users)[id], form, PicName(file));
          if TakenByOther(old(users), id, u.email, u.contact) || !UserValid(u) then
            r == Status(BadRequest) && body == None &&
            users == old(users) && pets == old(pets) && uploads == old(uploads) + FileSet(file)
          else
            && r == Status(Ok)
            && body == Some(ProfileOf(id, u))
            && State() == UpdateUser(old(State()), id, u)
            && uploads == (old(uploads) + FileSet(file)) - {old(users)[id].profilepic}
    {
      var g := VerifyToken(cookie, secret);
      if g.Stop? {
        r, body := Status(g.status), None;
        return;
      }
      Receive(file);
      if form.id.Malformed? || form.id.id !in users {
        r, body := Status(BadRequest), None;
        return;
      }
      var id := form.id.id;
      var previous := users[id].profilepic;
      var u := Patched(users[id], form, PicName(file));
      if TakenByOther(users, id, u.email, u.contact) || !UserValid(u) {
        r, body := Status(BadRequest), None;
        return;
      }
      assert UserWellFormed(users[id]);
      Replace(id, u);
      uploads := uploads - {previous};
      r, body := Status(Ok), Some(ProfileOf(id, u));
    }

    /**
     * `DELETE /api/deletepet/:id`, reachable without a session: a malformed
     * or unknown id fails with 400; otherwise the pet leaves its owner's
     * list and the collection, and its photo is deleted.
     */
    /**
     * The body of a successful deletion: the pet as it was, its owner's
     * document as read before the update, and the owner's new pet list.
     */
    method DeletePet(arg: IdArg) returns (r: Response, body: Option<(Pet, User, seq<Id>)>)
      requires Valid()
      modifies this
      ensures Valid()
      ensures arg.Malformed? || arg.id !in old(pets) ==>
        && r == Status(BadRequest) && body == None
        && users == old(users) && pets == old(pets) && uploads == old(uploads)
      ensures arg.Ref? && arg.id in old(pets) ==>
        var owner := old(pets)[arg.id].owner;
        && owner in old(users)
        && r == Status(Ok)
        && State() == RemovePet(old(State()), arg.id)
        && uploads == old(uploads) - {old(pets)[arg.id].photo}
        && body == Some((old(pets)[arg.id], old(users)[owner], Seqs.Without(old(users)[owner].pets, arg.id)))
        && owner in users && users[owner].pets == body.value.2
    {
      if arg.Malformed? || arg.id !in pets {
        r, body := Status(BadRequest), None;
        return;
      }
      var pet := pets[arg.id];
      var owner := users[pet.owner];
      var updated := Seqs.Without(owner.pets, arg.id);
      Drop(arg.id);
      uploads := uploads - {pet.photo};
      r, body := Status(Ok), Some((pet, owner, updated));
    }

    /** `petPhotos.map(... fs.unlink ...)`: deletes each listed photo from the upload directory in turn. */
    method UnlinkAll(photos: map<Id, string>)
      modifies this`uploads
      ensures uploads == old(uploads) - photos.Values
    {
      var todo := photos.Keys;
      while todo != {}
        invariant todo <= photos.Keys
        invariant uploads == old(uploads) - (set p | p in photos && p !in todo :: photos[p])
        decreases todo
      {
        var p :| p in todo;
        ghost var before := set q | q in photos && q !in todo :: photos[q];
        todo := todo - {p};
        assert (set q | q in photos && q !in todo :: photos[q]) == before + {photos[p]};
        uploads := uploads - {photos[p]};
      }
      assert (set q | q in photos && q !in todo :: photos[q]) == photos.Values;
    }

    /**
     * `DELETE /api/deleteuser/:id`, behind `[verifyToken, verifyAdmin]`: a
     * malformed id fails with 500, an unknown one with 404; otherwise the
     * user's pets are deleted, each of their photos removed one by one, then
     * the user and the profile picture.
     */
    method DeleteUser(cookie: Option<Token>, lookupFails: bool, arg: IdArg) returns (r: Response)
      requires Valid()
      modifies this
      ensures Valid()
      ensures var g := AdminChain(cookie, secret, old(users), lookupFails);
        if g.Stop? then
          r == Status(g.status) && users == old(users) && pets == old(pets) && uploads == old(uploads)
        else if arg.Malformed? then
          r == Status(ServerError) && users == old(users) && pets == old(pets) && uploads == old(uploads)
        else if arg.id !in old(users) then
          r == Status(NotFound) && users == old(users) && pets == old(pets) && uploads == old(uploads)
        else
          && r == Status(Ok)
          && State() == RemoveUser(old(State()), arg.id)
          && uploads == old(uploads) - PhotosOf(old(State()), arg.id) - {old(users)[arg.id].profilepic}
    {
      var g := AdminChain(cookie, secret, users, lookupFails);
      if g.Stop? {
        r := Status(g.status);
        return;
      }
      if arg.Malformed? {
        r := Status(ServerError);
        return;
      }
      var uid := arg.id;
      var petPhotos := PhotoMap(State(), uid);
      if uid !in users {
        r := Status(NotFound);
        return;
      }
      var profile := users[uid].profilepic;
      RemoveUserPreserves(State(), uid);
      Commit(RemoveUser(State(), uid), nextId);
      UnlinkAll(petPhotos);
      uploads := uploads - {profile};
      r := Status(Ok);
    }
  }
}
