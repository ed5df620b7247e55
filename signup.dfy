/**
 * The sign-up form. Its record holds four fields; a change handler replaces
 * one named field, and submitting rejects mismatched passwords (there is no
 * length check here) and otherwise clears the record. The sign-up call to
 * the auth service is commented out in this component, so success is certain.
 */
module SignUp {
  import opened Notices

  datatype Field = Email | Password | ConfirmPassword | Phone

  datatype FormData = FormData(email: string, password: string, confirmPassword: string, phone: string)

  const EmptyForm := FormData("", "", "", "")

  /** `formData[name]`. */
  function Get(f: FormData, name: Field): string {
    match name
    case Email => f.email
    case Password => f.password
    case ConfirmPassword => f.confirmPassword
    case Phone => f.phone
  }

  /** `{ ...formData, [name]: value }`: the named field gets the value, the others stay. */
  function WithField(f: FormData, name: Field, value: string): (r: FormData)
    ensures Get(r, name) == value
    ensures forall other :: other != name ==> Get(r, other) == Get(f, other)
  {
    match name
    case Email => f.(email := value)
    case Password => f.(password := value)
    case ConfirmPassword => f.(confirmPassword := value)
    case Phone => f.(phone := value)
  }

  /** Two records that agree on every field are the same record. */
  lemma {:induction false} FieldsDetermineForm(f: FormData, g: FormData)
    requires forall name :: Get(f, name) == Get(g, name)
    ensures f == g
  {
    assert Get(f, Email) == Get(g, Email);
    assert Get(f, Password) == Get(g, Password);
    assert Get(f, ConfirmPassword) == Get(g, ConfirmPassword);
    assert Get(f, Phone) == Get(g, Phone);
  }

  /** The contract of `WithField` fixes its result: any record meeting it is that record. */
  lemma WithFieldUnique(f: FormData, name: Field, value: string, r: FormData)
    requires Get(r, name) == value
    requires forall other :: other != name ==> Get(r, other) == Get(f, other)
    ensures r == WithField(f, name, value)
  {
    FieldsDetermineForm(r, WithField(f, name, value));
  }

  /** Writing back a field's own value changes nothing; a later write to a field wins. */
  lemma WithFieldLaws(f: FormData, name: Field, v: string, w: string)
    ensures WithField(f, name, Get(f, name)) == f
    ensures WithField(WithField(f, name, v), name, w) == WithField(f, name, w)
  {
  }

  /** Writes to two different fields can be made in either order. */
  lemma WithFieldCommutes(f: FormData, a: Field, b: Field, v: string, w: string)
    requires a != b
    ensures WithField(WithField(f, a, v), b, w) == WithField(WithField(f, b, w), a, v)
  {
  }

  class SignUpForm {
    var formData: FormData
    var isLoading: bool

    constructor ()
      ensures formData == EmptyForm && !isLoading
    {
      formData, isLoading := EmptyForm, false;
    }

    /** `handleChange` for the input called `name`. */
    method HandleChange(name: Field, value: string)
      modifies this`formData
      ensures formData == WithField(old(formData), name, value)
    {
      formData := WithField(formData, name, value);
    }

    /**
     * `handleSubmit`. A mismatch is rejected with the record and `isLoading`
     * untouched; otherwise the account is reported created, all four fields are
     * cleared, the login page is requested, and `isLoading` ends false.
     */
    method HandleSubmit() returns (notice: Notice, navigateToLogin: bool)
      modifies this
      ensures old(formData.password != formData.confirmPassword) ==>
        formData == old(formData) && isLoading == old(isLoading) &&
        notice == ErrorToast("Passwords do not match") && !navigateToLogin
      ensures old(formData.password == formData.confirmPassword) ==>
        formData == EmptyForm && !isLoading &&
        notice == SuccessToast("Account created successfully!") && navigateToLogin
    {
      if formData.password != formData.confirmPassword {
        return ErrorToast("Passwords do not match"), false;
      }
      isLoading := true;
      notice := SuccessToast("Account created successfully!");
      formData := EmptyForm;
      navigateToLogin := true;
      isLoading := false;
    }
  }

  /**
   * A client: any matching passwords are accepted, a one-character one
   * included, there being no length check.
   */
  method AnyMatchingPasswordAccepted(form: SignUpForm, p: string) returns (notice: Notice)
    modifies form
    ensures notice.SuccessToast? && form.formData == EmptyForm
  {
    form.HandleChange(Password, p);
    form.HandleChange(ConfirmPassword, p);
    var navigate;
    notice, navigate := form.HandleSubmit();
  }
}
