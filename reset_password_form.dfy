/** The set-new-password form: the password and confirmation fields, the
    "passwords match" flag, the password error and two visibility flags, with
    the submit handler and the two field handlers. React state setters become
    field assignments; a handler reads the state as it was when the event
    arrived, so the submit handler sees the password error from before its own
    validation. */
module ResetPasswordForm {
  import opened PasswordRules

  /** The `passwordError` value `validatePassword` sets for `password`. */
  function ResetPasswordError(password: string): (message: string)
    ensures message == "" <==> ResetAccepts(password)
    ensures message != "" ==> message == WeakPasswordMessage
  {
    if ResetAccepts(password) then "" else WeakPasswordMessage
  }

  class ResetPasswordFormState {
    var password: string
    var confirmPassword: string
    var passwordMatch: bool
    var passwordError: string
    var passwordVisible: bool
    var confirmPasswordVisible: bool

    /** The password error agrees with the password field; the only exception
        is an empty password that carries no error (the untouched form, and the
        form after a successful submit). */
    ghost predicate Synced()
      reads this
    {
      passwordError == ResetPasswordError(password) || (password == "" && passwordError == "")
    }

    constructor ()
      ensures password == "" && confirmPassword == "" && passwordMatch && passwordError == ""
      ensures !passwordVisible && !confirmPasswordVisible
      ensures Synced()
    {
      password := "";
      confirmPassword := "";
      passwordMatch := true;
      passwordError := "";
      passwordVisible := false;
      confirmPasswordVisible := false;
    }

    /** `validatePassword` */
    method ValidatePassword(candidate: string)
      modifies this`passwordError
      ensures passwordError == ResetPasswordError(candidate)
      ensures passwordError == "" <==> ResetAccepts(candidate)
    {
      if !ResetAccepts(candidate) {
        passwordError := WeakPasswordMessage;
      } else {
        passwordError := "";
      }
    }

    /** `handleSubmit`; `updated` stands for the password update the source
        announces before redirecting to the log-in page. */
    method HandleSubmit() returns (updated: bool)
      modifies this`password, this`confirmPassword, this`passwordError, this`passwordMatch
      ensures updated <==> old(password) == old(confirmPassword) && old(passwordError) == ""
      // mismatch: only the match flag changes, to false
      ensures old(password) != old(confirmPassword) ==>
        && !passwordMatch
        && password == old(password) && confirmPassword == old(confirmPassword)
        && passwordError == old(passwordError)
      // a pending error from before the submit blocks it; the fields stay and
      // the error is recomputed from the password
      ensures old(password) == old(confirmPassword) && old(passwordError) != "" ==>
        && password == old(password) && confirmPassword == old(confirmPassword)
        && passwordMatch == old(passwordMatch)
        && passwordError == ResetPasswordError(old(password))
      ensures updated ==> password == "" && confirmPassword == "" && passwordError == "" && passwordMatch
      ensures !updated && !old(passwordMatch) ==> !passwordMatch
      ensures old(Synced()) ==> Synced()
      ensures old(Synced()) && updated ==> old(password) == "" || ResetAccepts(old(password))
    {
      if password != confirmPassword {
        passwordMatch := false;
        return false;
      }
      var errorBeforeSubmit := passwordError;
      ValidatePassword(password);
      if errorBeforeSubmit != "" {
        return false;
      }
      password := "";
      confirmPassword := "";
      passwordError := "";
      passwordMatch := true;
      updated := true;
    }

    /** The password field's `onChange`: store the value and validate it. */
    method OnPasswordChange(value: string)
      modifies this`password, this`passwordError
      ensures password == value
      ensures passwordError == ResetPasswordError(value)
      ensures Synced()
    {
      password := value;
      ValidatePassword(value);
    }

    /** The confirmation field's `onChange`: store the value, nothing else. */
    method OnConfirmPasswordChange(value: string)
      modifies this`confirmPassword
      ensures confirmPassword == value
    {
      confirmPassword := value;
    }

    /** `togglePasswordVisibility` */
    method TogglePasswordVisibility()
      modifies this`passwordVisible
      ensures passwordVisible == !old(passwordVisible)
    {
      passwordVisible := !passwordVisible;
    }

    /** `toggleConfirmPasswordVisibility` */
    method ToggleConfirmPasswordVisibility()
      modifies this`confirmPasswordVisible
      ensures confirmPasswordVisible == !old(confirmPasswordVisible)
    {
      confirmPasswordVisible := !confirmPasswordVisible;
    }
  }
}
