/**
 * The "put a pet up for adoption" form
 * (frontend/src/Component/PutForAdoption.jsx): the weight and photo checks
 * before the upload request, and the photo picker.
 */
module PutForAdoption {
  import opened Wrappers
  import opened Schema
  import opened Client
  import Api

  const WeightMessage: string := "Weight must be a positive number."
  const PhotoMessage: string := "Please upload a photo of your pet."

  /** The text fields of the form. */
  datatype AdoptionFields = AdoptionFields(
    name: string, species: string, breed: string, color: string, weight: NumberField,
    nature: string, gender: string, description: string)

  /**
   * `data.weight <= 0` on the field's text: a blank field reads as 0, and
   * text that is not a number reads as NaN, for which the comparison is false.
   */
  predicate WeightRejected(w: NumberField) {
    match w
    case Blank => true
    case Num(v) => v <= 0.0
    case NaN => false
  }

  /** The multipart body the form posts: its own fields with `owner` appended. */
  function Body(fields: AdoptionFields, owner: Id): (form: Api.PetForm)
    ensures form.owner == Api.Ref(owner) && form.weight == fields.weight
  {
    Api.PetForm(fields.name, fields.species, fields.breed, fields.color, fields.weight,
                Some(fields.nature), fields.gender, Api.Ref(owner), fields.description)
  }

  /**
   * The handler passes exactly the weights that are positive numbers or not
   * numbers at all; a zero weight, which the schema accepts, is refused here,
   * and a non-number, which passes here, makes the server refuse the pet.
   * On the page itself the weight input is `type="number"`, which sends the
   * empty string for text that is not a number, so the NaN case describes
   * what the handler would do with such a body, not what the page can send.
   */
  lemma WeightChecksDisagree(fields: AdoptionFields, photo: string, owner: Id)
    ensures !WeightRejected(fields.weight) <==>
      fields.weight.NaN? || (fields.weight.Num? && fields.weight.v > 0.0)
    ensures WeightRejected(Num(0.0))
    ensures fields.weight.NaN? ==>
      CastPet(fields.name, fields.species, fields.breed, fields.color, fields.weight, photo,
              Some(fields.nature), fields.gender, fields.description, owner).None?
  {
  }

  class AdoptionForm {
    var petPhoto: Option<LocalFile>
    var preview: string
    var error: string
    var navigation: Navigation
    /**
     * The file the `photo` input currently holds; `new FormData(e.target)`
     * posts this one, not `petPhoto`.
     */
    var chosen: Option<LocalFile>
    /** `user._id` of the signed-in user. */
    const owner: Id

    constructor (owner: Id)
      ensures petPhoto == None && preview == "" && error == "" && navigation == Stay
      ensures chosen == None && this.owner == owner
    {
      petPhoto := None;
      preview := "";
      error := "";
      navigation := Stay;
      chosen := None;
      this.owner := owner;
    }

    /**
     * `handlePhotoChange`: the input now holds what was picked (nothing when
     * the picker was cancelled); only a picked file changes the photo state
     * and its preview.
     */
    method HandlePhotoChange(file: Option<LocalFile>)
      modifies this
      ensures chosen == file
      ensures file.None? ==> petPhoto == old(petPhoto) && preview == old(preview)
      ensures file.Some? ==> petPhoto == file && preview == file.value.objectUrl
      ensures error == old(error) && navigation == old(navigation)
    {
      chosen := file;
      if file.Some? {
        petPhoto := file;
        preview := file.value.objectUrl;
      }
    }

    /**
     * `handleSubmit`: the weight check, then the photo-state check, each
     * setting its message and stopping; otherwise the error is cleared and
     * the body with `owner` appended is posted with the input's current
     * file. The page moves to the dashboard once the request settles,
     * whatever the response; a rejected fetch (`fetchThrows`) is not caught,
     * so the page stays where it is.
     */
    method HandleSubmit(fields: AdoptionFields, fetchThrows: bool)
      returns (request: Option<(Api.PetForm, Option<LocalFile>)>)
      modifies this
      ensures WeightRejected(fields.weight) ==>
        error == WeightMessage && request == None && navigation == old(navigation)
      ensures !WeightRejected(fields.weight) && petPhoto.None? ==>
        error == PhotoMessage && request == None && navigation == old(navigation)
      ensures !WeightRejected(fields.weight) && petPhoto.Some? ==>
        && error == ""
        && request == Some((Body(fields, owner), chosen))
        && navigation == (if fetchThrows then old(navigation) else NavigateTo(DashboardPath))
      ensures error == "" <==> request.Some?
      ensures petPhoto == old(petPhoto) && preview == old(preview) && chosen == old(chosen)
    {
      if WeightRejected(fields.weight) {
        error := WeightMessage;
        return None;
      }
      if petPhoto.None? {
        error := PhotoMessage;
        return None;
      }
      error := "";
      request := Some((Body(fields, owner), chosen));
      if !fetchThrows {
        navigation := NavigateTo(DashboardPath);
      }
    }
  }

  /**
   * Picking a photo and then cancelling the picker keeps the photo state and
   * its preview, so the form passes its photo check, yet the request carries
   * no file; the upload route answers 500 to such a request.
   */
  method CancelledPickPostsNoFile(owner: Id, photo: LocalFile, fields: AdoptionFields)
    returns (request: Option<(Api.PetForm, Option<LocalFile>)>)
    requires !WeightRejected(fields.weight)
    ensures request.Some? && request.value.1.None?
  {
    var form := new AdoptionForm(owner);
    form.HandlePhotoChange(Some(photo));
    form.HandlePhotoChange(None);
    request := form.HandleSubmit(fields, false);
  }
}
