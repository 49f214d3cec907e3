/** The form machine of components/AuthModal.tsx: the login/signup mode,
    the loading flag and the error text around one call into the session. */
module AuthModal {
  import opened Wrappers
  import Auth

  datatype AuthMode = Login | Signup

  const DefaultError: string := "Authentication failed"

  function Toggled(mode: AuthMode): (r: AuthMode)
    ensures r != mode
  {
    if mode == Login then Signup else Login
  }

  /** Toggling twice gives the mode back. */
  lemma ToggledTwice(mode: AuthMode)
    ensures Toggled(Toggled(mode)) == mode
  {
  }

  class AuthForm {
    var mode: AuthMode
    var isLoading: bool
    var error: string
    var email: string
    var password: string
    var name: string

    constructor ()
      ensures mode == Login && !isLoading && error == ""
      ensures email == "" && password == "" && name == ""
    {
      mode := Login;
      isLoading := false;
      error := "";
      email, password, name := "", "", "";
    }

    /** Typing in the name field (shown in signup mode). */
    method EditName(text: string)
      modifies this
      ensures name == text && email == old(email) && password == old(password)
      ensures mode == old(mode) && isLoading == old(isLoading) && error == old(error)
    {
      name := text;
    }

    /** Typing in the email field. */
    method EditEmail(text: string)
      modifies this
      ensures email == text && name == old(name) && password == old(password)
      ensures mode == old(mode) && isLoading == old(isLoading) && error == old(error)
    {
      email := text;
    }

    /** Typing in the password field. */
    method EditPassword(text: string)
      modifies this
      ensures password == text && name == old(name) && email == old(email)
      ensures mode == old(mode) && isLoading == old(isLoading) && error == old(error)
    {
      password := text;
    }

    /** The link under the form. */
    method ToggleMode()
      modifies this
      ensures mode == Toggled(old(mode))
      ensures isLoading == old(isLoading) && error == old(error)
      ensures email == old(email) && password == old(password) && name == old(name)
    {
      mode := Toggled(mode);
    }

    /** `handleSubmit`: the error is cleared and loading starts; the mode
        picks `login` or `signup`; success asks to close the modal, failure
        shows the session's message (or the default text when it is empty);
        loading ends either way. */
    method Submit(auth: Auth.AuthSession, now: nat) returns (closeRequested: bool)
      modifies this, auth
      ensures closeRequested <==>
        if old(mode) == Login then Auth.LoginAccepted(email, password)
        else Auth.SignupAccepted(email, password, name)
      ensures closeRequested ==> error == ""
      ensures !closeRequested ==>
        error == (if old(mode) == Login then Auth.InvalidCredentials else Auth.InvalidData)
      ensures closeRequested && old(mode) == Login ==> auth.user == Some(Auth.LoginUser(email, now))
      ensures closeRequested && old(mode) == Signup ==> auth.user == Some(Auth.SignupUser(email, name, now))
      ensures closeRequested ==> auth.storedUser == auth.user
      ensures !closeRequested ==> auth.user == old(auth.user) && auth.storedUser == old(auth.storedUser)
      ensures auth.isLoading == old(auth.isLoading)
      ensures !isLoading && mode == old(mode)
      ensures email == old(email) && password == old(password) && name == old(name)
    {
      error := "";
      isLoading := true;
      var r;
      if mode == Login {
        r := auth.Login(email, password, now);
      } else {
        r := auth.Signup(email, password, name, now);
      }
      closeRequested := r.Pass?;
      if r.Fail? {
        error := OrElse(Some(r.error), DefaultError);
      }
      isLoading := false;
    }
  }
}
