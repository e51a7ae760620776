/**
 * The pet list provider (frontend/src/Context/PetContext.jsx): the ids of
 * the signed-in user's pets, and the details fetched for each id, appended
 * one by one unless `isDuplicate` finds the id already listed.
 *
 * The details effect runs `isDuplicate` against `petList` as it was when the
 * effect started (`snapshot` below); the append itself is a functional
 * update on the current list.
 */
module PetContext {
  import opened Wrappers
  import opened Schema

  /** A pet document as `GET /api/petdetails` returns it; `null` details are None. */
  datatype PetDoc = PetDoc(id: Id, pet: Pet)

  /** No entry is null. */
  predicate AllPresent(list: seq<Option<PetDoc>>) {
    forall i :: 0 <= i < |list| ==> list[i].Some?
  }

  /** No two present entries share an id. */
  ghost predicate DistinctIds(list: seq<Option<PetDoc>>) {
    forall i, j :: 0 <= i < j < |list| && list[i].Some? && list[j].Some? ==>
      list[i].value.id != list[j].value.id
  }

  /**
   * `petList.some(pet => pet._id === d._id)`, or None where it throws: on
   * reaching a null entry, or for null details once the list is non-empty.
   * On an empty list the callback never runs, so even null details pass.
   */
  function IsDuplicate(list: seq<Option<PetDoc>>, d: Option<PetDoc>): (r: Option<bool>)
    ensures list == [] ==> r == Some(false)
    ensures d.None? && list != [] ==> r == None
    ensures d.Some? && AllPresent(list) ==>
      r == Some(exists i :: 0 <= i < |list| && list[i].value.id == d.value.id)
    decreases |list|
  {
    if list == [] then Some(false)
    else if list[0].None? || d.None? then None
    else if list[0].value.id == d.value.id then Some(true)
    else
      var r := IsDuplicate(list[1..], d);
      assert d.Some? && AllPresent(list) ==> AllPresent(list[1..]) && forall i :: 0 <= i < |list[1..]| ==> list[1..][i] == list[i + 1];
      r
  }

  /** One detail arriving: appended at the end when the snapshot says it is new, else dropped. */
  function Arrive(list: seq<Option<PetDoc>>, snapshot: seq<Option<PetDoc>>, d: Option<PetDoc>)
    : (r: seq<Option<PetDoc>>)
    ensures |r| == |list| + (if IsDuplicate(snapshot, d) == Some(false) then 1 else 0)
    ensures r[..|list|] == list
    ensures |r| > |list| ==> r[|list|] == d
  {
    if IsDuplicate(snapshot, d) == Some(false) then list + [d] else list
  }

  /** Details arriving in order, all checked against the same snapshot. */
  function ArriveAll(list: seq<Option<PetDoc>>, snapshot: seq<Option<PetDoc>>, ds: seq<Option<PetDoc>>)
    : seq<Option<PetDoc>>
    decreases |ds|
  {
    if ds == [] then list else ArriveAll(Arrive(list, snapshot, ds[0]), snapshot, ds[1..])
  }

  /**
   * Checked against the current list, a present detail is added only when
   * its id is new, so a list without nulls or repeated ids keeps both.
   */
  lemma FreshSnapshotKeepsIdsDistinct(list: seq<Option<PetDoc>>, d: Option<PetDoc>)
    requires AllPresent(list) && DistinctIds(list) && d.Some?
    ensures AllPresent(Arrive(list, list, d)) && DistinctIds(Arrive(list, list, d))
  {
    var r := Arrive(list, list, d);
    if |r| > |list| {
      forall i | 0 <= i < |list| ensures r[i].value.id != d.value.id {
        assert r[i] == list[i];
      }
    }
  }

  /**
   * After a user change the snapshot is the cleared list, so every detail
   * that arrives is appended, null ones and repeated ids included.
   */
  lemma {:induction false} EmptySnapshotAppendsAll(list: seq<Option<PetDoc>>, ds: seq<Option<PetDoc>>)
    ensures ArriveAll(list, [], ds) == list + ds
    decreases |ds|
  {
    if ds != [] {
      EmptySnapshotAppendsAll(list + [ds[0]], ds[1..]);
      assert list + [ds[0]] + ds[1..] == list + ds;
    }
  }

  /** The same pet delivered twice against the empty snapshot is listed twice. */
  lemma EmptySnapshotAdmitsDuplicates(doc: PetDoc)
    ensures ArriveAll([], [], [Some(doc), Some(doc)]) == [Some(doc), Some(doc)]
    ensures !DistinctIds(ArriveAll([], [], [Some(doc), Some(doc)]))
  {
    EmptySnapshotAppendsAll([], [Some(doc), Some(doc)]);
    var r := ArriveAll([], [], [Some(doc), Some(doc)]);
    assert r[0].value.id == r[1].value.id;
  }

  class PetProvider {
    /** The ids of the signed-in user's pets. */
    var pets: seq<Id>
    /** Their details, in arrival order. */
    var petList: seq<Option<PetDoc>>

    constructor ()
      ensures pets == [] && petList == []
    {
      pets := [];
      petList := [];
    }

    /** The user effect: with a signed-in user (one with an `_id`), both lists are cleared before the refetch. */
    method UserChanged(userId: Option<Id>)
      modifies this
      ensures userId.Some? ==> pets == [] && petList == []
      ensures userId.None? ==> pets == old(pets) && petList == old(petList)
    {
      if userId.Some? {
        pets := [];
        petList := [];
      }
    }

    /** `setPets(result.pets)`. */
    method PetsFetched(ids: seq<Id>)
      modifies this
      ensures pets == ids && petList == old(petList)
    {
      pets := ids;
    }

    /** The details effect's requests: one per id, in list order, and none for an empty list. */
    method DetailRequests() returns (requests: seq<Id>)
      ensures |requests| == |pets|
      ensures forall i :: 0 <= i < |pets| ==> requests[i] == pets[i]
    {
      requests := [];
      if |pets| > 0 {
        for i := 0 to |pets|
          invariant |requests| == i
          invariant forall j :: 0 <= j < i ==> requests[j] == pets[j]
        {
          requests := requests + [pets[i]];
        }
      }
    }

    /** One response of the details effect, checked against the effect's `snapshot` of the list. */
    method DetailArrived(snapshot: seq<Option<PetDoc>>, d: Option<PetDoc>)
      modifies this
      ensures petList == Arrive(old(petList), snapshot, d) && pets == old(pets)
    {
      if IsDuplicate(snapshot, d) == Some(false) {
        petList := petList + [d];
      }
    }
  }
}
