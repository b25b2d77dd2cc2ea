/** Profile.tsx: the profile form's password check, its update body and
    the reset after a successful update. */
module Profile {
  import opened Wrappers
  import opened AuthSlice

  /** The body sent to update the profile; an empty password is left out. */
  datatype UserUpdate = UserUpdate(name: string, email: string, password: Option<string>)

  datatype Outcome = Mismatch | Update(data: UserUpdate)

  const MismatchMessage: string := "Passwords do not match"

  /** The check and body of `handleSubmit`: a non-empty password must equal
      its confirmation; an empty one is sent as absent whatever the
      confirmation holds. */
  function CheckPasswords(name: string, email: string, password: string, confirmPassword: string): (r: Outcome)
    ensures r.Mismatch? <==> password != "" && password != confirmPassword
    ensures r.Update? ==> r.data.name == name && r.data.email == email
    ensures r.Update? ==> (r.data.password.None? <==> password == "")
    ensures r.Update? && r.data.password.Some? ==>
      r.data.password.value == password && password == confirmPassword
  {
    if password != "" && password != confirmPassword then Mismatch
    else Update(UserUpdate(name, email, if password != "" then Some(password) else None))
  }

  datatype Field = Name | Email | Password | ConfirmPassword

  /** The page state. */
  class ProfileForm {
    var isEditing: bool
    var name: string
    var email: string
    var password: string
    var confirmPassword: string
    var message: Option<string>

    constructor ()
      ensures !isEditing && name == "" && email == "" && password == "" && confirmPassword == ""
      ensures message == None
    {
      isEditing := false;
      name := "";
      email := "";
      password := "";
      confirmPassword := "";
      message := None;
    }

    /** The Edit and Cancel buttons. */
    method SetEditing(editing: bool)
      modifies this
      ensures isEditing == editing
      ensures name == old(name) && email == old(email) && password == old(password)
      ensures confirmPassword == old(confirmPassword) && message == old(message)
    {
      isEditing := editing;
    }

    method SetText(field: Field, text: string)
      modifies this
      ensures name == (if field == Name then text else old(name))
      ensures email == (if field == Email then text else old(email))
      ensures password == (if field == Password then text else old(password))
      ensures confirmPassword == (if field == ConfirmPassword then text else old(confirmPassword))
      ensures isEditing == old(isEditing) && message == old(message)
    {
      match field
      case Name => name := text;
      case Email => email := text;
      case Password => password := text;
      case ConfirmPassword => confirmPassword := text;
    }

    /** The user effect: a known user's name and email fill the form. */
    method OnUser(user: Option<User>)
      modifies this
      ensures user.Some? ==> name == user.value.name && email == user.value.email
      ensures user.None? ==> name == old(name) && email == old(email)
      ensures isEditing == old(isEditing) && password == old(password)
      ensures confirmPassword == old(confirmPassword) && message == old(message)
    {
      if user.Some? {
        name := user.value.name;
        email := user.value.email;
      }
    }

    /** `handleSubmit`: the message is cleared first; a mismatch sets the
        message and sends nothing, otherwise the update body is returned for
        dispatch. */
    method Submit() returns (sent: Option<UserUpdate>)
      modifies this
      ensures var outcome := CheckPasswords(name, email, password, confirmPassword);
        && (outcome.Mismatch? ==> sent == None && message == Some(MismatchMessage))
        && (outcome.Update? ==> sent == Some(outcome.data) && message == None)
      ensures isEditing == old(isEditing) && name == old(name) && email == old(email)
      ensures password == old(password) && confirmPassword == old(confirmPassword)
    {
      message := None;
      match CheckPasswords(name, email, password, confirmPassword)
      case Mismatch =>
        message := Some(MismatchMessage);
        sent := None;
      case Update(data) =>
        sent := Some(data);
    }

    /** The success effect: once the store reports success, editing stops,
        both password fields are cleared and the store's success flag is
        reset. The next submit then sends no password. */
    method OnSuccess(auth: Auth)
      modifies this, auth
      ensures !auth.success
      ensures old(auth.success) ==> !isEditing && password == "" && confirmPassword == ""
      ensures old(auth.success) ==> CheckPasswords(name, email, password, confirmPassword) == Update(UserUpdate(name, email, None))
      ensures !old(auth.success) ==>
        isEditing == old(isEditing) && password == old(password) && confirmPassword == old(confirmPassword)
      ensures name == old(name) && email == old(email) && message == old(message)
      ensures auth.user == old(auth.user) && auth.otpSent == old(auth.otpSent)
      ensures auth.loading == old(auth.loading) && auth.error == old(auth.error)
    {
      if auth.success {
        isEditing := false;
        password := "";
        confirmPassword := "";
        auth.ResetSuccess();
      }
    }
  }
}
