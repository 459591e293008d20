/** The change-password page (src/pages/ChangePassword.tsx): the check of
    the new password and its confirmation, and the PUT it guards. */
module ChangePassword {
  import opened Wrappers
  import opened FieldRules

  /** The message `validatePassword` stores: the length checks first, then
      the comparison with the confirmation; "" when the form is acceptable. */
  function PasswordError(password: string, confirmPassword: string): (msg: string)
    ensures msg == "" <==> 5 <= |password| <= 100 && password == confirmPassword
  {
    var lengthError := LengthMessage(password, 5, 100,
      "Password must be at least 5 characters", "Password must be less than 100 characters");
    if lengthError != "" then lengthError
    else if password != confirmPassword then "Passwords do not match"
    else ""
  }

  /** A password of the wrong length gets the length message even when the
      confirmation differs; the mismatch is reported only for a password of
      acceptable length. */
  lemma LengthBeforeMismatch(password: string, confirmPassword: string)
    ensures |password| < 5 ==> PasswordError(password, confirmPassword) == "Password must be at least 5 characters"
    ensures |password| > 100 ==> PasswordError(password, confirmPassword) == "Password must be less than 100 characters"
    ensures PasswordError(password, confirmPassword) == "Passwords do not match" <==>
      5 <= |password| <= 100 && password != confirmPassword
  {
  }

  /** The request the page sends: the path names the user, the body holds the password only. */
  datatype PasswordUpdate = PasswordUpdate(path: string, password: string)

  class ChangePasswordForm {
    const userId: string
    var password: string
    var confirmPassword: string
    var error: string
    var isSubmitting: bool

    constructor (id: string)
      ensures userId == id
      ensures password == "" && confirmPassword == "" && error == "" && !isSubmitting
    {
      userId := id;
      password, confirmPassword, error := "", "", "";
      isSubmitting := false;
    }

    /** `validatePassword`: store the message (reset to "" on acceptance) and report acceptance. */
    method ValidatePassword() returns (ok: bool)
      modifies this`error
      ensures error == PasswordError(password, confirmPassword)
      ensures ok <==> error == ""
    {
      error := PasswordError(password, confirmPassword);
      ok := error == "";
    }

    /** `handleSubmit`: a rejected form sends nothing and leaves `isSubmitting`
        alone; an accepted one sends the password to the user's password
        endpoint and ends with `isSubmitting` false. */
    method HandleSubmit() returns (sent: Option<PasswordUpdate>)
      modifies this`error, this`isSubmitting
      ensures error == PasswordError(password, confirmPassword)
      ensures sent.Some? <==> 5 <= |password| <= 100 && password == confirmPassword
      ensures sent.Some? ==> sent.value == PasswordUpdate("/users/" + userId + "/password", password)
      ensures isSubmitting == if sent.Some? then false else old(isSubmitting)
    {
      var ok := ValidatePassword();
      if !ok {
        return None;
      }
      isSubmitting := true;
      sent := Some(PasswordUpdate("/users/" + userId + "/password", password));
      isSubmitting := false;
    }
  }
}
