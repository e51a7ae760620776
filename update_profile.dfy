/**
 * The profile editor (frontend/src/Component/UpdateProfile.jsx): the form
 * prefilled from the signed-in user, the keep/remove/change state of the
 * profile picture, and the multipart body a submit sends.
 */
module UpdateProfile {
  import opened Wrappers
  import opened Schema
  import opened Client
  import Api

  /** What the user has asked for the picture; sent as text but never read by the server. */
  datatype PhotoAction = Keep | Remove | Change

  function ActionName(a: PhotoAction): string {
    match a
    case Keep => "keep"
    case Remove => "remove"
    case Change => "change"
  }

  const UploadsUrl: string := "http://localhost:3000/uploads/"

  /** The editable text fields, in the order the form state declares them. */
  const FieldNames: seq<string> :=
    ["fullname", "email", "contact", "locality", "city", "pincode", "state", "country"]

  /** The user object of the context: its `_id` and its other fields (a missing key is undefined). */
  datatype ClientUser = ClientUser(id: Id, fields: map<string, string>)

  /** `user.<key> || ''`. */
  function FieldOr(u: ClientUser, key: string): string {
    if key in u.fields then u.fields[key] else ""
  }

  /** The prefill effect: every editable field from the user, a missing one as ''. */
  function Prefill(u: ClientUser): (form: map<string, string>)
    ensures form.Keys == set k | k in FieldNames
    ensures forall k :: k in form && k !in u.fields ==> form[k] == ""
    ensures forall k :: k in form && k in u.fields ==> form[k] == u.fields[k]
  {
    map k | k in FieldNames :: FieldOr(u, k)
  }

  /** The user has a stored picture (`user.profilepic` is truthy). */
  predicate HasPicture(u: ClientUser) {
    "profilepic" in u.fields && u.fields["profilepic"] != ""
  }

  /** The preview URL of the stored picture. */
  function StoredPreview(u: ClientUser): string
    requires HasPicture(u)
  {
    UploadsUrl + u.fields["profilepic"]
  }

  /** The multipart body: `_id`, the text fields in order, `photoAction`, and maybe the file. */
  datatype Submission = Submission(
    id: Id, fields: seq<(string, string)>, photoAction: string, file: Option<LocalFile>)

  /**
   * A submission without a file, which every `'keep'` and `'remove'`
   * submission is, makes the server store '' as the picture: keeping the
   * picture erases it.
   */
  lemma NoFileClearsPicture(u: User, form: Api.ProfileForm)
    ensures Api.Patched(u, form, Api.PicName(None)).profilepic == ""
  {
  }

  class ProfileEditor {
    /** The signed-in user the page was opened for. */
    const user: ClientUser
    var formData: map<string, string>
    var file: Option<LocalFile>
    var preview: string
    var photoAction: PhotoAction

    /** The form holds a value for every editable field. */
    ghost predicate Valid()
      reads this
    {
      forall k :: k in FieldNames ==> k in formData
    }

    /** The initial state followed by the prefill effect. */
    constructor (user: ClientUser)
      ensures this.user == user && formData == Prefill(user)
      ensures file == None && photoAction == Keep
      ensures preview == if HasPicture(user) then StoredPreview(user) else ""
      ensures Valid()
    {
      this.user := user;
      formData := Prefill(user);
      file := None;
      photoAction := Keep;
      preview := if HasPicture(user) then UploadsUrl + user.fields["profilepic"] else "";
    }

    /** `handleInputChange` for one of the form's inputs. */
    method HandleInputChange(name: string, value: string)
      requires Valid() && name in FieldNames
      modifies this
      ensures formData == old(formData)[name := value]
      ensures file == old(file) && preview == old(preview) && photoAction == old(photoAction)
      ensures Valid()
    {
      formData := formData[name := value];
    }

    /** `handleProfilePicChange`: a picked file is kept, previewed and marks the picture as changed. */
    method HandleProfilePicChange(picked: Option<LocalFile>)
      modifies this
      ensures picked.None? ==>
        file == old(file) && preview == old(preview) && photoAction == old(photoAction)
      ensures picked.Some? ==>
        file == picked && preview == picked.value.objectUrl && photoAction == Change
      ensures formData == old(formData)
    {
      if picked.Some? {
        file := picked;
        preview := picked.value.objectUrl;
        photoAction := Change;
      }
    }

    /** `handleRemoveProfilePic`. */
    method HandleRemoveProfilePic()
      modifies this
      ensures file == None && preview == "" && photoAction == Remove
      ensures formData == old(formData)
    {
      file := None;
      preview := "";
      photoAction := Remove;
    }

    /**
     * `handleUndoRemove`: back to `'keep'`, the stored picture previewed
     * again if there is one; a file picked earlier stays held but is no
     * longer sent.
     */
    method HandleUndoRemove()
      modifies this
      ensures photoAction == Keep && file == old(file)
      ensures preview == if HasPicture(user) then StoredPreview(user) else old(preview)
      ensures formData == old(formData)
    {
      if HasPicture(user) {
        preview := UploadsUrl + user.fields["profilepic"];
      }
      photoAction := Keep;
    }

    /**
     * The body `handleSubmit` assembles: the user's id, each text field in
     * the form's key order, the action, and the file only for `'change'`
     * with a file held.
     */
    method BuildSubmission() returns (s: Submission)
      requires Valid()
      ensures s.id == user.id
      ensures |s.fields| == |FieldNames|
      ensures forall i :: 0 <= i < |FieldNames| ==> s.fields[i] == (FieldNames[i], formData[FieldNames[i]])
      ensures s.photoAction == ActionName(photoAction)
      ensures s.file.Some? <==> photoAction == Change && file.Some?
      ensures s.file.Some? ==> s.file == file
    {
      var fields: seq<(string, string)> := [];
      for i := 0 to |FieldNames|
        invariant |fields| == i
        invariant forall j :: 0 <= j < i ==> fields[j] == (FieldNames[j], formData[FieldNames[j]])
      {
        fields := fields + [(FieldNames[i], formData[FieldNames[i]])];
      }
      var attached := if photoAction == Change && file.Some? then file else None;
      s := Submission(user.id, fields, ActionName(photoAction), attached);
    }
  }
}
