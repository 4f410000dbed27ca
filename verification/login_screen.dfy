/**
 * The password form (components/LoginScreen.tsx): it keeps the typed
 * password and the last error, and submits the password to the
 * application's login handler.
 */
module Login {
  import opened AppState

  /** Shown after a wrong password. */
  const WrongPasswordMessage := "Mật khẩu không đúng. " + "Vui lòng thử lại."

  /** The state of the password form. */
  class LoginScreen {
    var password: string
    var error: string

    /** An empty form without error. */
    constructor()
      ensures password == "" && error == ""
    {
      password := "";
      error := "";
    }

    /** The password field's `onChange`: only the password changes; an error stays on screen. */
    method OnPasswordChange(value: string)
      modifies this`password
      ensures password == value
    {
      password := value;
    }

    /**
     * `handleSubmit`: pass the current password to the login handler once.
     * When it is refused, show the error and empty the field; when it is
     * accepted, leave the form as it is.
     */
    method HandleSubmit(app: App) returns (submitted: string, success: bool)
      modifies this, app`isAuthenticated
      ensures submitted == old(password)
      ensures success <==> old(password) == CorrectPassword
      ensures app.isAuthenticated == (success || old(app.isAuthenticated))
      ensures success ==> password == old(password) && error == old(error)
      ensures !success ==> password == "" && error == WrongPasswordMessage
    {
      submitted := password;
      success := app.HandleLogin(password);
      if !success {
        error := WrongPasswordMessage;
        password := "";
      }
    }
  }
}
