/**
 * The client-side checks of the registration form
 * (frontend/src/Component/Register.jsx): the live password messages, the
 * order of the submit checks and the choice of endpoint by role.
 */
module Register {
  import opened Text
  import opened Schema

  const Mismatch: string := "Passwords do not match!"
  const TooShort: string := "Password must be at least 6 characters long."
  const BadMobile: string := "Mobile number must have 10 digits!"
  const MinPasswordLength: nat := 6

  const UserEndpoint: string := "api/register/user"
  const AdminEndpoint: string := "api/register/admin"

  /**
   * `handlePasswordChange`: the mismatch message wins over the length
   * message, but only once a confirmation has been typed.
   */
  function PasswordMessage(password: string, confirm: string): (m: string)
    ensures m == Mismatch <==> confirm != "" && password != confirm
    ensures m == TooShort <==> (confirm == "" || password == confirm) && |password| < MinPasswordLength
    ensures m == "" <==> (confirm == "" || password == confirm) && |password| >= MinPasswordLength
  {
    if confirm != "" && password != confirm then Mismatch
    else if |password| < MinPasswordLength then TooShort
    else ""
  }

  /** `handleConfirmPasswordChange`: the length message wins over the mismatch message. */
  function ConfirmMessage(password: string, confirm: string): (m: string)
    ensures m == TooShort <==> |password| < MinPasswordLength
    ensures m == Mismatch <==> |password| >= MinPasswordLength && password != confirm
    ensures m == "" <==> |password| >= MinPasswordLength && password == confirm
  {
    if |password| < MinPasswordLength then TooShort
    else if password != confirm then Mismatch
    else ""
  }

  /** Once a confirmation is typed, the two handlers agree on whether there is a problem. */
  lemma MessagesAgreeOnSuccess(password: string, confirm: string)
    requires confirm != ""
    ensures PasswordMessage(password, confirm) == "" <==> ConfirmMessage(password, confirm) == ""
  {
  }

  /** A short password that differs from a typed confirmation gets a different message from each handler. */
  lemma MessagePrecedenceDiffers(password: string, confirm: string)
    requires confirm != "" && password != confirm && |password| < MinPasswordLength
    ensures PasswordMessage(password, confirm) == Mismatch
    ensures ConfirmMessage(password, confirm) == TooShort
  {
  }

  /** What submitting the form does: one of two error messages, or a request to an endpoint. */
  datatype Submission =
    | PasswordRefused(message: string)
    | FormRefused(message: string)
    | Sent(endpoint: string, role: string)

  /**
   * `handleSubmit`: mismatch, then length, then a contact that is not ten
   * characters long, each stopping before any request; otherwise the form
   * gets the current role appended and goes to the user endpoint for role
   * `'user'` and to the admin endpoint for any other role.
   */
  function HandleSubmit(password: string, confirm: string, contact: string, role: string): (s: Submission)
    ensures s.Sent? <==>
      password == confirm && |password| >= MinPasswordLength && |contact| == ContactLength
    ensures password != confirm ==> s == PasswordRefused(Mismatch)
    ensures password == confirm && |password| < MinPasswordLength ==> s == PasswordRefused(TooShort)
    ensures s.FormRefused? ==> s.message == BadMobile
    ensures s.Sent? ==> s.role == role
    ensures s.Sent? ==> (s.endpoint == UserEndpoint <==> role == UserRole)
    ensures s.Sent? ==> (s.endpoint == AdminEndpoint <==> role != UserRole)
  {
    if password != confirm then PasswordRefused(Mismatch)
    else if |password| < MinPasswordLength then PasswordRefused(TooShort)
    else if |contact| != ContactLength then FormRefused(BadMobile)
    else if role == UserRole then Sent(UserEndpoint, role)
    else Sent(AdminEndpoint, role)
  }

  /**
   * The contact check counts characters only: every contact the schema
   * accepts passes it, but so does a ten-character value with a sign in it,
   * which the server's `match` validator refuses.
   */
  lemma ContactCheckWeakerThanSchema(password: string, role: string)
    requires |password| >= MinPasswordLength
    ensures forall c :: ValidContact(c) ==> HandleSubmit(password, password, c, role).Sent?
    ensures HandleSubmit(password, password, "-123456789", role).Sent?
    ensures !ValidContact("-123456789")
  {
    assert !IsDigit("-123456789"[0]);
  }

  /** The role selector: `'user'` at first, then whichever button was pressed last. */
  class RoleSelector {
    var role: string

    constructor ()
      ensures role == UserRole
    {
      role := UserRole;
    }

    method ChooseUser()
      modifies this
      ensures role == UserRole
    {
      role := UserRole;
    }

    method ChooseAdmin()
      modifies this
      ensures role == AdminRole
    {
      role := AdminRole;
    }
  }
}
