/**
 * The two Mongoose schemas, `User` (backend/models/users.models.js) and
 * `Pet` (backend/models/pets.models.js): the record each stores, the setters
 * applied before a record is saved (`trim`, `lowercase`, `default`) and the
 * validators the saved value must pass (`required`, `enum`, `match`, `min`,
 * `maxLength`). A text field that is absent from a request is modelled as
 * the empty string wherever Mongoose treats the two alike.
 */
module Schema {
  import opened Wrappers
  import opened Text
  import opened Bcrypt

  /** A MongoDB ObjectId. */
  type Id = nat

  const UserRole: string := "user"
  const AdminRole: string := "admin"
  const Roles: seq<string> := [UserRole, AdminRole]

  const Species: seq<string> := ["Dog", "Cat", "Rabbit", "Parrot", "Hamster", "Other"]
  const Natures: seq<string> := ["Playful", "Calm", "Shy", "Energetic", "Affectionate"]
  const Genders: seq<string> := ["Male", "Female"]

  const ContactLength: nat := 10
  const MaxDescriptionLength: nat := 500

  /** A stored user document (timestamps are not modelled). */
  datatype User = User(
    fullname: string,
    email: string,
    password: Digest,
    contact: string,
    locality: string,
    city: string,
    state: string,
    country: string,
    pincode: string,
    role: string,
    profilepic: string,
    pets: seq<Id>)

  /** A stored pet document (timestamps are not modelled). */
  datatype Pet = Pet(
    name: string,
    species: string,
    breed: string,
    color: string,
    weight: Option<real>,
    photo: string,
    nature: Option<string>,
    gender: string,
    description: string,
    owner: Id)

  /** A numeric form field as sent: empty, a number, or text that is not a number. */
  datatype NumberField = Blank | Num(v: real) | NaN

  // ---------------------------------------------------------------- users

  /** The `match: /^\d{10}$/` validator on `contact`. */
  predicate ValidContact(c: string) {
    |c| == ContactLength && forall i :: 0 <= i < |c| ==> IsDigit(c[i])
  }

  // -------------------------------------------- the email `match` pattern

  /** A character of `[^<>()[\]\\.,;:\s@"]`: the unquoted local part's alphabet. */
  predicate IsAtomChar(c: char) {
    c !in "<>()[]\\.,;:@\"" && !IsSpace(c)
  }

  /** A character of `[a-zA-Z\-0-9]`: a domain label's alphabet. */
  predicate IsLabelChar(c: char) {
    'a' <= c <= 'z' || 'A' <= c <= 'Z' || IsDigit(c) || c == '-'
  }

  /** A character of `[a-zA-Z]`. */
  predicate IsAsciiLetter(c: char) {
    'a' <= c <= 'z' || 'A' <= c <= 'Z'
  }

  /** `[^<>()[\]\\.,;:\s@"]+`. */
  predicate IsAtom(s: string) {
    s != [] && forall k :: 0 <= k < |s| ==> IsAtomChar(s[k])
  }

  /** `[a-zA-Z\-0-9]+`. */
  predicate IsLabel(s: string) {
    s != [] && forall k :: 0 <= k < |s| ==> IsLabelChar(s[k])
  }

  /** `[0-9]{1,3}`. */
  predicate IsOctet(s: string) {
    1 <= |s| <= 3 && forall k :: 0 <= k < |s| ==> IsDigit(s[k])
  }

  /** `[a-zA-Z]{2,}`. */
  predicate IsTopLevel(s: string) {
    |s| >= 2 && forall k :: 0 <= k < |s| ==> IsAsciiLetter(s[k])
  }

  /** `[^...]+(\.[^...]+)*`: dot-separated atoms. */
  predicate DotAtom(s: string) {
    var pieces := Split(s, '.');
    forall k :: 0 <= k < |pieces| ==> IsAtom(pieces[k])
  }

  /** `".+"`: a double quote, at least one character that ends no line, a double quote. */
  predicate Quoted(s: string) {
    |s| >= 3 && s[0] == '"' && s[|s| - 1] == '"' &&
    forall k :: 0 < k < |s| - 1 ==> !IsLineTerminator(s[k])
  }

  /** The part before `@`. */
  predicate LocalPart(s: string) {
    DotAtom(s) || Quoted(s)
  }

  /** `\[[0-9]{1,3}\.[0-9]{1,3}\.[0-9]{1,3}\.[0-9]{1,3}\]`. */
  predicate IpLiteral(s: string) {
    |s| >= 2 && s[0] == '[' && s[|s| - 1] == ']' &&
    var groups := Split(s[1..|s| - 1], '.');
    |groups| == 4 && forall k :: 0 <= k < 4 ==> IsOctet(groups[k])
  }

  /**
   * `([a-zA-Z\-0-9]+\.)+[a-zA-Z]{2,}`: one or more labels, each followed
   * by a dot, then a top-level label of at least two letters.
   */
  predicate HostName(s: string) {
    var labels := Split(s, '.');
    |labels| >= 2 &&
    (forall k :: 0 <= k < |labels| - 1 ==> IsLabel(labels[k])) &&
    IsTopLevel(labels[|labels| - 1])
  }

  /** The part after `@`. */
  predicate DomainPart(s: string) {
    IpLiteral(s) || HostName(s)
  }

  /**
   * The email `match` validator: the pattern is anchored at both ends, so
   * it accepts exactly the strings that some `@` splits into a local part
   * and a domain.
   */
  predicate ValidEmail(e: string) {
    exists i :: 0 <= i < |e| && e[i] == '@' && LocalPart(e[..i]) && DomainPart(e[i + 1..])
  }

  /** With a single `@`, the address is valid exactly when the text on each side is. */
  lemma SingleAt(e: string, i: nat)
    requires i < |e| && e[i] == '@'
    requires forall k :: 0 <= k < |e| && k != i ==> e[k] != '@'
    ensures ValidEmail(e) <==> LocalPart(e[..i]) && DomainPart(e[i + 1..])
  {
  }

  /** An `@` with a local part before it and a domain after it makes the address valid. */
  lemma SplitsAt(e: string, i: nat)
    requires i < |e| && e[i] == '@' && LocalPart(e[..i]) && DomainPart(e[i + 1..])
    ensures ValidEmail(e)
  {
  }

  lemma MailLabel()
    ensures IsLabel("mail")
  {
    assert IsLabelChar('m') && IsLabelChar('a') && IsLabelChar('i') && IsLabelChar('l');
  }

  lemma ComTopLevel()
    ensures IsTopLevel("com")
  {
    assert IsAsciiLetter('c') && IsAsciiLetter('o') && IsAsciiLetter('m');
  }

  lemma MailDomain()
    ensures DomainPart("mail.com")
  {
    var labels := ["mail", "com"];
    assert labels[1..] == ["com"];
    assert Join(labels, '.') == "mail.com";
    SplitJoin(labels, '.');
    MailLabel();
    ComTopLevel();
  }

  lemma PlainLocal()
    ensures LocalPart("jo")
  {
    SplitJoin(["jo"], '.');
    assert IsAtomChar('j') && IsAtomChar('o');
  }

  /** An everyday address passes the pattern. */
  lemma AcceptsPlainAddress()
    ensures ValidEmail("jo@mail.com")
  {
    var e := "jo@mail.com";
    MailDomain();
    PlainLocal();
    PlainAddressParts(e);
    SplitsAt(e, 2);
  }

  lemma PlainAddressParts(e: string)
    requires e == "jo@mail.com"
    ensures e[..2] == "jo" && e[3..] == "mail.com" && e[2] == '@'
  {
  }

  /** `b..com` has an empty label. */
  lemma EmptyLabelDomain()
    ensures !DomainPart("b..com")
  {
    var labels := ["b", "", "com"];
    assert labels[1..] == ["", "com"] && labels[2..] == ["com"];
    assert Join(labels, '.') == "b..com";
    SplitJoin(labels, '.');
  }

  /** `b.cd.e` ends in a one-letter label. */
  lemma ShortTopLevelDomain()
    ensures !DomainPart("b.cd.e")
  {
    var labels := ["b", "cd", "e"];
    assert labels[1..] == ["cd", "e"] && labels[2..] == ["e"];
    assert Join(labels, '.') == "b.cd.e";
    SplitJoin(labels, '.');
  }

  /** `b.c1` ends in a label with a digit. */
  lemma DigitTopLevelDomain()
    ensures !DomainPart("b.c1")
  {
    var labels := ["b", "c1"];
    assert labels[1..] == ["c1"];
    assert Join(labels, '.') == "b.c1";
    SplitJoin(labels, '.');
    assert !IsAsciiLetter(labels[1][1]);
  }

  /** `a<b` holds a character the local part excludes, and is not quoted. */
  lemma BracketLocal()
    ensures !LocalPart("a<b")
  {
    assert Join(["a<b"], '.') == "a<b";
    SplitJoin(["a<b"], '.');
    assert !IsAtomChar('<');
  }

  /** An empty domain label fails the pattern. */
  lemma RefusesEmptyLabel()
    ensures !ValidEmail("a@b..com")
  {
    var e := "a@b..com";
    EmptyLabelDomain();
    assert e[2..] == "b..com";
    SingleAt(e, 1);
  }

  /** A one-letter top-level label fails the pattern. */
  lemma RefusesShortTopLevel()
    ensures !ValidEmail("a@b.cd.e")
  {
    var e := "a@b.cd.e";
    ShortTopLevelDomain();
    assert e[2..] == "b.cd.e";
    SingleAt(e, 1);
  }

  /** A digit in the top-level label fails the pattern. */
  lemma RefusesDigitTopLevel()
    ensures !ValidEmail("a@b.c1")
  {
    var e := "a@b.c1";
    DigitTopLevelDomain();
    assert e[2..] == "b.c1";
    SingleAt(e, 1);
  }

  /** An angle bracket in an unquoted local part fails the pattern. */
  lemma RefusesBracket()
    ensures !ValidEmail("a<b@x.com")
  {
    var e := "a<b@x.com";
    BracketLocal();
    assert e[..3] == "a<b";
    SingleAt(e, 3);
  }

  /** What the setters guarantee of a saved user: trimmed text, lower-case email. */
  predicate UserNormalized(u: User) {
    IsTrimmed(u.fullname) && IsTrimmed(u.email) && IsLower(u.email) &&
    IsTrimmed(u.locality) && IsTrimmed(u.city) && IsTrimmed(u.state) &&
    IsTrimmed(u.country) && IsTrimmed(u.pincode)
  }

  /** The validators of the user schema, applied to the value after the setters. */
  predicate UserValid(u: User) {
    u.fullname != "" &&
    u.email != "" && ValidEmail(u.email) &&
    ValidContact(u.contact) &&
    u.role in Roles
  }

  /** A user document as it can be saved. */
  predicate UserWellFormed(u: User) {
    UserNormalized(u) && UserValid(u)
  }

  /**
   * Builds the user document `users.create` saves: setters on every
   * trimmed field, email lower-cased, `role` defaulting to `'user'` when the
   * request carries none, and an empty pet list.
   */
  function CastUser(fullname: string, email: string, password: Digest, contact: string,
                    locality: string, city: string, state: string, country: string,
                    pincode: string, role: Option<string>, profilepic: string): (u: User)
    ensures UserNormalized(u)
    ensures u.fullname == Trim(fullname)
    ensures u.email == NormalizeEmail(email) && u.contact == contact && u.password == password
    ensures u.locality == Trim(locality) && u.city == Trim(city) && u.state == Trim(state) &&
            u.country == Trim(country) && u.pincode == Trim(pincode)
    ensures u.role == (if role.Some? then role.value else UserRole)
    ensures u.profilepic == profilepic && u.pets == []
  {
    TrimAlwaysTrimmed();
    User(Trim(fullname), NormalizeEmail(email), password, contact,
         Trim(locality), Trim(city), Trim(state), Trim(country), Trim(pincode),
         role.GetOr(UserRole), profilepic, [])
  }

  /** A normalized email is its own normal form. */
  lemma NormalizedEmailFixed(e: string)
    requires IsTrimmed(e) && IsLower(e)
    ensures NormalizeEmail(e) == e
  {
    TrimmedFixed(e);
    assert Lower(e) == e;
  }

  /**
   * Casting a stored document's own fields again gives that document back
   * (with an empty pet list): the setters change nothing that is already
   * normalized.
   */
  lemma CastUserFixed(u: User)
    requires UserNormalized(u)
    ensures CastUser(u.fullname, u.email, u.password, u.contact, u.locality, u.city, u.state,
                     u.country, u.pincode, Some(u.role), u.profilepic) == u.(pets := [])
  {
    TrimmedFixed(u.fullname);
    NormalizedEmailFixed(u.email);
    TrimmedFixed(u.locality);
    TrimmedFixed(u.city);
    TrimmedFixed(u.state);
    TrimmedFixed(u.country);
    TrimmedFixed(u.pincode);
  }

  // ---------------------------------------------------------------- pets

  /** What the setters guarantee of a saved pet: its trimmed fields are trimmed. */
  predicate PetNormalized(p: Pet) {
    IsTrimmed(p.name) && IsTrimmed(p.breed) && IsTrimmed(p.color) &&
    (p.nature.Some? ==> IsTrimmed(p.nature.value)) &&
    IsTrimmed(p.gender) && IsTrimmed(p.description)
  }

  /** The validators of the pet schema, applied to the value after the setters. */
  predicate PetValid(p: Pet) {
    p.name != "" &&
    p.species in Species &&
    p.breed != "" &&
    p.color != "" &&
    (p.weight.Some? ==> p.weight.value >= 0.0) &&
    p.photo != "" &&
    (p.nature.Some? ==> p.nature.value in Natures) &&
    p.gender in Genders &&
    |p.description| <= MaxDescriptionLength
  }

  predicate PetWellFormed(p: Pet) {
    PetNormalized(p) && PetValid(p)
  }

  /**
   * Builds the pet document `pets.create` saves, or None when the weight is
   * not a number (Mongoose's cast error). A blank weight is stored as absent.
   */
  function CastPet(name: string, species: string, breed: string, color: string,
                   weight: NumberField, photo: string, nature: Option<string>,
                   gender: string, description: string, owner: Id): (r: Option<Pet>)
    ensures r.None? <==> weight.NaN?
    ensures r.Some? ==> PetNormalized(r.value) && r.value.owner == owner && r.value.photo == photo
    ensures r.Some? ==> (r.value.weight.Some? <==> weight.Num?)
    ensures r.Some? ==>
      && r.value.name == Trim(name) && r.value.species == species
      && r.value.breed == Trim(breed) && r.value.color == Trim(color)
      && (weight.Num? ==> r.value.weight == Some(weight.v))
      && r.value.nature == (if nature.Some? then Some(Trim(nature.value)) else None)
      && r.value.gender == Trim(gender) && r.value.description == Trim(description)
  {
    TrimAlwaysTrimmed();
    var trimmedNature := if nature.Some? then Some(Trim(nature.value)) else None;
    match weight
    case NaN => None
    case Blank =>
      Some(Pet(Trim(name), species, Trim(breed), Trim(color), None, photo,
               trimmedNature, Trim(gender), Trim(description), owner))
    case Num(w) =>
      Some(Pet(Trim(name), species, Trim(breed), Trim(color), Some(w), photo,
               trimmedNature, Trim(gender), Trim(description), owner))
  }

  /** The form field a stored weight is sent back as. */
  function WeightField(w: Option<real>): (f: NumberField)
    ensures f.NaN? == false
  {
    if w.Some? then Num(w.value) else Blank
  }

  /** The document a cast with a numeric or blank weight builds. */
  lemma CastPetBuilds(name: string, species: string, breed: string, color: string,
                      weight: Option<real>, photo: string, nature: Option<string>,
                      gender: string, description: string, owner: Id)
    ensures CastPet(name, species, breed, color, WeightField(weight), photo, nature, gender,
                    description, owner)
         == Some(Pet(Trim(name), species, Trim(breed), Trim(color), weight, photo,
                     if nature.Some? then Some(Trim(nature.value)) else None,
                     Trim(gender), Trim(description), owner))
  {
  }

  /**
   * Casting a stored pet's own fields again gives that pet back: the
   * setters change nothing that is already normalized, and a weight sent
   * as its number (or left blank when absent) is stored as it was.
   */
  lemma CastPetFixed(p: Pet)
    requires PetNormalized(p)
    ensures CastPet(p.name, p.species, p.breed, p.color, WeightField(p.weight), p.photo,
                    p.nature, p.gender, p.description, p.owner) == Some(p)
  {
    CastPetBuilds(p.name, p.species, p.breed, p.color, p.weight, p.photo, p.nature, p.gender,
                  p.description, p.owner);
    TrimmedFixed(p.name);
    TrimmedFixed(p.breed);
    TrimmedFixed(p.color);
    TrimmedFixed(p.gender);
    TrimmedFixed(p.description);
    if p.nature.Some? {
      TrimmedFixed(p.nature.value);
    }
  }

  /** A weight of zero is accepted; only a negative one is refused. */
  lemma ZeroWeightAccepted(p: Pet)
    requires PetValid(p)
    ensures PetValid(p.(weight := Some(0.0)))
    ensures forall w: real :: w < 0.0 ==> !PetValid(p.(weight := Some(w)))
  {
  }
}
