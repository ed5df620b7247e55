/**
 * The "set new password" form. Submitting checks, in this order, that the
 * two entries agree and that the password is at least six characters long;
 * only then does it turn `loading` on, call the auth service's password
 * update, and turn `loading` off again whatever the call did.
 */
module ResetPassword {
  import opened Notices

  const MinLength: nat := 6

  /**
   * `String.prototype.length`: the number of UTF-16 code units, so a character
   * outside the Basic Multilingual Plane counts twice.
   */
  function Utf16Length(s: string): (n: nat)
    ensures |s| <= n <= 2 * |s|
    ensures (forall i :: 0 <= i < |s| ==> s[i] as int <= 0xFFFF) ==> n == |s|
  {
    if s == [] then 0 else (if s[0] as int > 0xFFFF then 2 else 1) + Utf16Length(s[1..])
  }

  datatype Check = Mismatch | TooShort | Accepted

  /** The two early returns of `handleSubmit`, the mismatch test first. */
  function Validate(password: string, confirmPassword: string): (c: Check)
    ensures c == Mismatch <==> password != confirmPassword
    ensures c == TooShort <==> password == confirmPassword && Utf16Length(password) < MinLength
    ensures c == Accepted <==> password == confirmPassword && Utf16Length(password) >= MinLength
  {
    if password != confirmPassword then Mismatch
    else if Utf16Length(password) < MinLength then TooShort
    else Accepted
  }

  /** The toast a rejected submission shows. */
  function Rejection(c: Check): (n: Notice)
    requires c != Accepted
    ensures n.ErrorToast?
  {
    if c == Mismatch then ErrorToast("Passwords do not match")
    else ErrorToast("Password must be at least 6 characters long")
  }

  /** A mismatch is reported even when the password is also too short. */
  lemma MismatchReportedFirst(password: string, confirmPassword: string)
    requires password != confirmPassword && Utf16Length(password) < MinLength
    ensures Rejection(Validate(password, confirmPassword)) == ErrorToast("Passwords do not match")
  {
  }

  /** Matching entries of six code units are enough, five are not. */
  lemma LengthBoundary(p: string)
    ensures Utf16Length(p) == 6 ==> Validate(p, p) == Accepted
    ensures Utf16Length(p) == 5 ==> Validate(p, p) == TooShort
  {
  }

  /** How the auth service's `updateUser` call ended. */
  datatype UpdateResult =
    | Updated
    | UpdateFailed(message: string)   // an error object; `""` stands for a missing message
    | UpdateThrew

  /** The toast after the update call: `error.message || 'Failed to reset password'`. */
  function UpdateNotice(r: UpdateResult): (n: Notice)
    ensures n.SuccessToast? <==> r.Updated?
    ensures r.UpdateFailed? && r.message != "" ==> n == ErrorToast(r.message)
  {
    match r
    case Updated => SuccessToast("Password reset successful!")
    case UpdateFailed(m) => ErrorToast(if m == "" then "Failed to reset password" else m)
    case UpdateThrew => ErrorToast("Failed to reset password")
  }

  class ResetPasswordForm {
    var password: string
    var confirmPassword: string
    var loading: bool

    constructor ()
      ensures password == "" && confirmPassword == "" && !loading
    {
      password, confirmPassword, loading := "", "", false;
    }

    /** The password input's `onChange`. */
    method SetPassword(value: string)
      modifies this`password
      ensures password == value
    {
      password := value;
    }

    /** The confirmation input's `onChange`. */
    method SetConfirmPassword(value: string)
      modifies this`confirmPassword
      ensures confirmPassword == value
    {
      confirmPassword := value;
    }

    /**
     * `handleSubmit`, given how the update call would end. The call is made
     * exactly when the entries agree and are long enough; a rejected attempt
     * leaves `loading` as it was, an accepted one ends with `loading` false.
     * The redirect to the login page is scheduled only after a successful update.
     */
    method HandleSubmit(update: UpdateResult) returns (notice: Notice, updateCalled: bool, redirectScheduled: bool)
      modifies this`loading
      ensures updateCalled <==> Validate(password, confirmPassword) == Accepted
      ensures !updateCalled ==> loading == old(loading) && notice == Rejection(Validate(password, confirmPassword))
      ensures updateCalled ==> !loading && notice == UpdateNotice(update)
      ensures redirectScheduled <==> updateCalled && update.Updated?
    {
      var check := Validate(password, confirmPassword);
      if check != Accepted {
        return Rejection(check), false, false;
      }
      loading := true;
      updateCalled := true;
      notice := UpdateNotice(update);
      redirectScheduled := update.Updated?;
      loading := false;
    }
  }
}
