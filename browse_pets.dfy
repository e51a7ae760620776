/**
 * The pet filter of frontend/src/Component/BrowsePets.jsx: three selects
 * (species, nature, gender), each `'all'` or one value, narrowing the list
 * fetched from `GET /api/pets`.
 */
module BrowsePets {
  import opened Wrappers
  import opened Seqs
  import opened Schema

  /** The option value that switches a filter off. */
  const All: string := "all"

  datatype Filters = Filters(species: string, nature: string, gender: string)

  /** The filters the page starts with. */
  const Initial: Filters := Filters(All, All, All)

  /** The `name` of the select an event comes from. */
  datatype FilterKey = SpeciesKey | NatureKey | GenderKey

  function Get(f: Filters, key: FilterKey): string {
    match key
    case SpeciesKey => f.species
    case NatureKey => f.nature
    case GenderKey => f.gender
  }

  /** `setFilters({...filters, [name]: value})`: the named filter takes the value, the others stay. */
  function WithKey(f: Filters, key: FilterKey, value: string): (r: Filters)
    ensures Get(r, key) == value
    ensures forall k :: k != key ==> Get(r, k) == Get(f, k)
  {
    match key
    case SpeciesKey => f.(species := value)
    case NatureKey => f.(nature := value)
    case GenderKey => f.(gender := value)
  }

  /** A pet passes when it equals (`===`) every filter that is not `'all'`; a pet without a nature never equals one. */
  predicate Matches(f: Filters, p: Pet) {
    (f.species != All ==> p.species == f.species) &&
    (f.nature != All ==> p.nature == Some(f.nature)) &&
    (f.gender != All ==> p.gender == f.gender)
  }

  function SpeciesIs(v: string): Pet -> bool {
    (p: Pet) => p.species == v
  }

  function NatureIs(v: string): Pet -> bool {
    (p: Pet) => p.nature == Some(v)
  }

  function GenderIs(v: string): Pet -> bool {
    (p: Pet) => p.gender == v
  }

  /** The whole filter as one predicate. */
  function Matcher(f: Filters): Pet -> bool {
    p => Matches(f, p)
  }

  /**
   * The filter effect: a copy of the list, narrowed by species, then by
   * nature, then by gender, each step only when its filter is not `'all'`.
   * It keeps exactly the pets that match.
   */
  function FilterPets(f: Filters, pets: seq<Pet>): (r: seq<Pet>)
    ensures forall p :: p in r <==> p in pets && Matches(f, p)
    ensures f == Initial ==> r == pets
  {
    var bySpecies := if f.species != All then Filter(pets, SpeciesIs(f.species)) else pets;
    var byNature := if f.nature != All then Filter(bySpecies, NatureIs(f.nature)) else bySpecies;
    if f.gender != All then Filter(byNature, GenderIs(f.gender)) else byNature
  }

  lemma FilterCons<T(!new)>(x: T, s: seq<T>, p: T -> bool)
    ensures Filter([x] + s, p) == if p(x) then [x] + Filter(s, p) else Filter(s, p)
  {
    assert ([x] + s)[1..] == s;
  }

  /** The three chained filters are one filter by `Matches`, element by element. */
  lemma {:induction false} FilterPetsIsMatches(f: Filters, pets: seq<Pet>)
    ensures FilterPets(f, pets) == Filter(pets, Matcher(f))
    decreases |pets|
  {
    if pets != [] {
      var x, rest := pets[0], pets[1..];
      assert pets == [x] + rest;
      FilterPetsIsMatches(f, rest);
      FilterCons(x, rest, Matcher(f));
      FilterCons(x, rest, SpeciesIs(f.species));
      var s1 := if f.species != All then Filter(rest, SpeciesIs(f.species)) else rest;
      if f.species == All || SpeciesIs(f.species)(x) {
        FilterCons(x, s1, NatureIs(f.nature));
        var s2 := if f.nature != All then Filter(s1, NatureIs(f.nature)) else s1;
        if f.nature == All || NatureIs(f.nature)(x) {
          FilterCons(x, s2, GenderIs(f.gender));
        }
      }
    }
  }

  /** The result keeps the order of the fetched list. */
  lemma FilterPetsIsSubsequence(f: Filters, pets: seq<Pet>)
    ensures IsSubsequence(FilterPets(f, pets), pets)
  {
    FilterPetsIsMatches(f, pets);
    FilterIsSubsequence(pets, Matcher(f));
  }

  /** Filtering the filtered list again with the same filters changes nothing. */
  lemma FilterPetsIdempotent(f: Filters, pets: seq<Pet>)
    ensures FilterPets(f, FilterPets(f, pets)) == FilterPets(f, pets)
  {
    FilterPetsIsMatches(f, pets);
    FilterPetsIsMatches(f, FilterPets(f, pets));
    FilterIdempotent(pets, Matcher(f));
  }

  /** The page's state: the fetched list (null until it arrives), the shown list and the filters. */
  class BrowsePage {
    var allPets: Option<seq<Pet>>
    var filteredPets: seq<Pet>
    var filters: Filters

    /** The shown list is the fetched list under the current filters, once there is one. */
    ghost predicate Valid()
      reads this
    {
      allPets.Some? ==> filteredPets == FilterPets(filters, allPets.value)
    }

    constructor ()
      ensures allPets == None && filteredPets == [] && filters == Initial
      ensures Valid()
    {
      allPets := None;
      filteredPets := [];
      filters := Initial;
    }

    /** The filter effect, run after either dependency changes; a null list leaves everything as it is. */
    method Refilter()
      modifies this`filteredPets
      ensures allPets.Some? ==> filteredPets == FilterPets(filters, allPets.value)
      ensures allPets.None? ==> filteredPets == old(filteredPets)
    {
      if allPets.Some? {
        filteredPets := FilterPets(filters, allPets.value);
      }
    }

    /** A successful fetch: both lists set to the result, then the effect runs. */
    method Loaded(pets: seq<Pet>)
      modifies this
      ensures allPets == Some(pets) && filters == old(filters)
      ensures filteredPets == FilterPets(filters, pets)
      ensures Valid()
    {
      allPets := Some(pets);
      filteredPets := pets;
      Refilter();
    }

    /** `handleFilterChange`, then the effect. */
    method HandleFilterChange(key: FilterKey, value: string)
      modifies this
      ensures filters == WithKey(old(filters), key, value) && allPets == old(allPets)
      ensures allPets.None? ==> filteredPets == old(filteredPets)
      ensures Valid()
    {
      filters := WithKey(filters, key, value);
      Refilter();
    }
  }
}
