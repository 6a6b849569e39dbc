/**
  * The administrator login form (pages/AdminLogin.tsx): a password field, an
  * error line, and a submit handler comparing against a fixed password.
  */
module AdminLogin {

  /** The one password the form accepts (compared exactly, case included). */
  const AdminPassword: string := "admin123"
  const InvalidPassword: string := "Invalid password. Please try again."

  /** The form's acceptance test: exact equality with the fixed password. */
  predicate Accepts(password: string)
  {
    password == AdminPassword
  }

  /** The error line is rendered exactly when the error text is non-empty. */
  function ShowsError(error: string): (shown: bool)
    ensures shown <==> |error| > 0
  {
    error != ""
  }

  class LoginForm {
    var password: string
    var error: string

    /** Mounting: an empty password and no error. */
    constructor ()
      ensures password == "" && error == ""
      ensures !ShowsError(error)
    {
      password := "";
      error := "";
    }

    /**
      * `handleSubmit`: the fixed password reports success (`onLoginSuccess`)
      * and leaves the form as it is; any other text, the empty one included,
      * reports nothing and sets the error message.
      */
    method HandleSubmit() returns (loginSuccess: bool)
      modifies this
      ensures loginSuccess <==> Accepts(old(password))
      ensures password == old(password)
      ensures error == if loginSuccess then old(error) else InvalidPassword
      ensures !loginSuccess ==> ShowsError(error)
    {
      if password == AdminPassword {
        loginSuccess := true;
      } else {
        loginSuccess := false;
        error := InvalidPassword;
      }
    }

    /** Typing in the password field stores the text and clears any error. */
    method OnPasswordChange(value: string)
      modifies this
      ensures password == value && error == ""
      ensures !ShowsError(error)
    {
      password := value;
      error := "";
    }
  }

  /**
    * A wrong password is refused and shows the error, editing the field hides
    * it again, and then the right password is accepted; a password differing
    * only in letter case is refused.
    */
  method WrongThenRight() returns (first: bool, shownAfterWrong: bool, shownAfterEdit: bool, second: bool, upperCase: bool)
    ensures !first && shownAfterWrong && !shownAfterEdit && second && !upperCase
  {
    var form := new LoginForm();
    form.OnPasswordChange("admin");
    first := form.HandleSubmit();
    shownAfterWrong := ShowsError(form.error);
    form.OnPasswordChange(AdminPassword);
    shownAfterEdit := ShowsError(form.error);
    second := form.HandleSubmit();
    form.OnPasswordChange("ADMIN123");
    upperCase := form.HandleSubmit();
  }
}
