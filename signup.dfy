/** The sign-up form: field edits, the password check, and what a submission does. */
module Signup {
  import opened Wrappers

  datatype Field = FirstName | LastName | Email | DateOfBirth | NativeLanguage | Password | ConfirmPassword

  datatype Form = Form(
    firstName: string,
    lastName: string,
    email: string,
    dateOfBirth: string,
    nativeLanguage: string,
    password: string,
    confirmPassword: string)

  const InitialForm: Form := Form("", "", "", "", "English", "", "")

  const MismatchMessage: string := "Passwords do not match"
  const TooShortMessage: string := "Password must be at least 8 characters"
  const DefaultAuthMessage: string := "An error occurred during signup"
  const CreatedRedirect: string := "/login?message=Account created! Please check your email to confirm."
  const MinPasswordLength: nat := 8

  function Get(f: Form, field: Field): string {
    match field
    case FirstName => f.firstName
    case LastName => f.lastName
    case Email => f.email
    case DateOfBirth => f.dateOfBirth
    case NativeLanguage => f.nativeLanguage
    case Password => f.password
    case ConfirmPassword => f.confirmPassword
  }

  /** `handleChange`: `{ ...formData, [name]: value }`. */
  function Change(f: Form, field: Field, value: string): (r: Form)
    ensures Get(r, field) == value
    ensures forall other :: other != field ==> Get(r, other) == Get(f, other)
  {
    match field
    case FirstName => f.(firstName := value)
    case LastName => f.(lastName := value)
    case Email => f.(email := value)
    case DateOfBirth => f.(dateOfBirth := value)
    case NativeLanguage => f.(nativeLanguage := value)
    case Password => f.(password := value)
    case ConfirmPassword => f.(confirmPassword := value)
  }

  /** `validate`: the message to show, if any. */
  function Validate(f: Form): Option<string> {
    if f.password != f.confirmPassword then Some(MismatchMessage)
    else if |f.password| < MinPasswordLength then Some(TooShortMessage)
    else None
  }

  /** A mismatch is reported whatever the length; matching passwords are refused exactly
      when they are shorter than eight characters. */
  lemma ValidateCases(f: Form)
    ensures f.password != f.confirmPassword ==> Validate(f) == Some(MismatchMessage)
    ensures f.password == f.confirmPassword ==>
      (Validate(f) == Some(TooShortMessage) <==> |f.password| < MinPasswordLength)
    ensures Validate(f) == None <==> f.password == f.confirmPassword && |f.password| >= MinPasswordLength
  {
  }

  /** What the authentication service answered, when asked. */
  datatype AuthReply = Accepted | Rejected(message: string)

  /** The observable result of one submission. */
  datatype Submission = Submission(error: Option<string>, attempted: bool, redirect: Option<string>)

  /** `handleSignup`: a validation message stops the submission before the service is
      asked; otherwise a refusal shows its message (or a default for an empty one) and an
      acceptance redirects to the login page. */
  function Submit(f: Form, auth: AuthReply): Submission {
    match Validate(f)
    case Some(message) => Submission(Some(message), false, None)
    case None =>
      match auth
      case Accepted => Submission(None, true, Some(CreatedRedirect))
      case Rejected(message) =>
        Submission(Some(if message == "" then DefaultAuthMessage else message), true, None)
  }

  /** An invalid form never reaches the service and shows the validation message. */
  lemma InvalidFormIsNotSent(f: Form, auth: AuthReply)
    requires Validate(f).Some?
    ensures Submit(f, auth) == Submission(Validate(f), false, None)
  {
  }

  /** A valid form is always sent; it redirects iff the service accepts it, and otherwise
      shows a non-empty message. */
  lemma ValidFormIsSent(f: Form, auth: AuthReply)
    requires Validate(f).None?
    ensures Submit(f, auth).attempted
    ensures Submit(f, auth).redirect.Some? <==> auth.Accepted?
    ensures auth.Rejected? ==> Submit(f, auth).error.Some? && Submit(f, auth).error.value != ""
  {
  }

  class SignupPage {
    var formData: Form
    var loading: bool
    var error: Option<string>

    constructor ()
      ensures formData == InitialForm && !loading && error == None
    {
      formData := InitialForm;
      loading := false;
      error := None;
    }

    method HandleChange(field: Field, value: string)
      modifies this
      ensures formData == Change(old(formData), field, value)
      ensures loading == old(loading) && error == old(error)
    {
      formData := Change(formData, field, value);
    }

    /** Submits the form; `auth` is what the service answers if it is asked. */
    method HandleSignup(auth: AuthReply) returns (attempted: bool, redirect: Option<string>)
      modifies this
      ensures Submit(formData, auth) == Submission(error, attempted, redirect)
      ensures formData == old(formData) && !loading
    {
      loading := true;
      error := None;
      attempted, redirect := false, None;
      var validationError := Validate(formData);
      if validationError.Some? {
        error := validationError;
        loading := false;
        return;
      }
      attempted := true;
      match auth {
        case Accepted =>
          redirect := Some(CreatedRedirect);
        case Rejected(message) =>
          error := Some(if message == "" then DefaultAuthMessage else message);
      }
      loading := false;
    }
  }
}
