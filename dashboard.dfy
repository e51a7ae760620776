/**
 * The dashboard (frontend/src/Component/Dashboard.jsx): which view a role
 * gets, when the community list is fetched, and the two confirmed removals
 * that drop an entry from a local list once the delete request returns.
 */
module Dashboard {
  import opened Wrappers
  import opened Seqs
  import opened Schema
  import opened PetContext

  /** A member of `GET /api/community` as the dashboard lists it. */
  datatype Member = Member(id: Id, user: User)

  const UnexpectedError: string := "Some unexpected error occured."

  datatype View = UserDashboard | AdminDashboard

  /** `role === 'user' ? <UserDashboard/> : <AdminDashboard/>`. */
  function ViewFor(role: string): (v: View)
    ensures v == UserDashboard <==> role == UserRole
  {
    if role == UserRole then UserDashboard else AdminDashboard
  }

  /** The community effect runs only for `user?.role === 'admin'`. */
  predicate FetchesCommunity(role: Option<string>) {
    role == Some(AdminRole)
  }

  /** Only an admin both sees the admin view and has the members fetched; any other non-user role gets the view but an empty list. */
  lemma AdminViewWithoutMembers(role: string)
    ensures FetchesCommunity(Some(role)) ==> ViewFor(role) == AdminDashboard
    ensures role != UserRole && role != AdminRole ==>
      ViewFor(role) == AdminDashboard && !FetchesCommunity(Some(role))
  {
  }

  /** `list.filter(p => p._id !== id)` over the pet list. */
  function RemovePetById(list: seq<PetDoc>, id: Id): (r: seq<PetDoc>)
    ensures forall p :: p in r <==> p in list && p.id != id
    ensures IsSubsequence(r, list)
  {
    var keep := (p: PetDoc) => p.id != id;
    FilterIsSubsequence(list, keep);
    Filter(list, keep)
  }

  /** `list.filter(m => m._id !== id)` over the members. */
  function RemoveMemberById(list: seq<Member>, id: Id): (r: seq<Member>)
    ensures forall m :: m in r <==> m in list && m.id != id
    ensures IsSubsequence(r, list)
  {
    var keep := (m: Member) => m.id != id;
    FilterIsSubsequence(list, keep);
    Filter(list, keep)
  }

  /** Removing an id that is not listed changes nothing. */
  lemma RemoveAbsentPet(list: seq<PetDoc>, id: Id)
    requires forall p :: p in list ==> p.id != id
    ensures RemovePetById(list, id) == list
  {
    FilterAll(list, (p: PetDoc) => p.id != id);
  }

  class DashboardState {
    var petList: seq<PetDoc>
    var members: seq<Member>
    var petToDelete: Option<PetDoc>
    var userToDelete: Option<Member>
    var error: Option<string>

    constructor (petList: seq<PetDoc>)
      ensures this.petList == petList && members == []
      ensures petToDelete == None && userToDelete == None && error == None
    {
      this.petList := petList;
      members := [];
      petToDelete := None;
      userToDelete := None;
      error := None;
    }

    /** `handleRemovePetClick`: the pet waits for confirmation. */
    method AskRemovePet(pet: PetDoc)
      modifies this
      ensures petToDelete == Some(pet)
      ensures petList == old(petList) && members == old(members) && userToDelete == old(userToDelete)
      ensures error == old(error)
    {
      petToDelete := Some(pet);
    }

    /**
     * `confirmRemovePet`: nothing without a pending pet; when the delete
     * request throws, only the error is set; otherwise, whatever the status
     * of the response, the pet's id leaves the list and nothing is pending.
     */
    method ConfirmRemovePet(fetchThrows: bool)
      modifies this
      ensures members == old(members) && userToDelete == old(userToDelete)
      ensures old(petToDelete).None? ==>
        petList == old(petList) && petToDelete == None && error == old(error)
      ensures old(petToDelete).Some? && fetchThrows ==>
        petList == old(petList) && petToDelete == old(petToDelete) && error == Some(UnexpectedError)
      ensures old(petToDelete).Some? && !fetchThrows ==>
        && petList == RemovePetById(old(petList), old(petToDelete).value.id)
        && petToDelete == None
        && error == old(error)
    {
      if petToDelete.None? {
        return;
      }
      if fetchThrows {
        error := Some(UnexpectedError);
        return;
      }
      petList := RemovePetById(petList, petToDelete.value.id);
      petToDelete := None;
    }

    /** `handleRemoveUserClick`: the member waits for confirmation. */
    method AskRemoveUser(member: Member)
      modifies this
      ensures userToDelete == Some(member)
      ensures petList == old(petList) && members == old(members) && petToDelete == old(petToDelete)
      ensures error == old(error)
    {
      userToDelete := Some(member);
    }

    /** `confirmRemoveUser`: the same pattern on the member list. */
    method ConfirmRemoveUser(fetchThrows: bool)
      modifies this
      ensures petList == old(petList) && petToDelete == old(petToDelete)
      ensures old(userToDelete).None? ==>
        members == old(members) && userToDelete == None && error == old(error)
      ensures old(userToDelete).Some? && fetchThrows ==>
        members == old(members) && userToDelete == old(userToDelete) && error == Some(UnexpectedError)
      ensures old(userToDelete).Some? && !fetchThrows ==>
        && members == RemoveMemberById(old(members), old(userToDelete).value.id)
        && userToDelete == None
        && error == old(error)
    {
      if userToDelete.None? {
        return;
      }
      if fetchThrows {
        error := Some(UnexpectedError);
        return;
      }
      members := RemoveMemberById(members, userToDelete.value.id);
      userToDelete := None;
    }
  }
}
