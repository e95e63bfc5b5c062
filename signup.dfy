/** `SignupViewModel` (src/main/kotlin/viewModels/SignupViewModel.kt): the sign-up form,
    its per-field error map, and the sign-up step. */
module SignupViewModels {
  import opened Wrappers
  import opened Models
  import opened ErrorMaps
  import Validation

  /** The form's inputs. */
  datatype SignupForm = SignupForm(name: string, email: string, password: string,
                                   rePassword: string, termsAccepted: bool)

  const Keys: set<string> := {"name", "email", "password", "confirmPassword", "terms"}

  /** The `apply { … }` block of `validateForm` over the outcome of its five tests: one
      `put` per failed test, each under its own key. */
  function Collect(nameEmpty: bool, emailBad: bool, passwordBad: bool, mismatch: bool, termsMissing: bool)
    : (e: map<string, string>)
    ensures e.Keys <= Keys
    ensures ErrorFor(e, "name") == if nameEmpty then Some("Name is required") else None
    ensures ErrorFor(e, "email") == if emailBad then Some("Invalid email address") else None
    ensures ErrorFor(e, "password") ==
      if passwordBad then Some("Must be 8+ chars with 1 uppercase and 1 number") else None
    ensures ErrorFor(e, "confirmPassword") == if mismatch then Some("Passwords don't match") else None
    ensures ErrorFor(e, "terms") == if termsMissing then Some("You must accept the terms") else None
  {
    var e0: map<string, string> := map[];
    var e1 := PutIf(e0, "name", nameEmpty, "Name is required");
    var e2 := PutIf(e1, "email", emailBad, "Invalid email address");
    var e3 := PutIf(e2, "password", passwordBad, "Must be 8+ chars with 1 uppercase and 1 number");
    var e4 := PutIf(e3, "confirmPassword", mismatch, "Passwords don't match");
    PutIf(e4, "terms", termsMissing, "You must accept the terms")
  }

  /** `validateForm`'s error map: exactly one entry per failed check. */
  function SignupErrors(f: SignupForm): (e: map<string, string>)
    ensures e.Keys <= Keys
    ensures ErrorFor(e, "name") == if f.name == "" then Some("Name is required") else None
    ensures ErrorFor(e, "email") ==
      if !Validation.IsValidEmail(f.email) then Some("Invalid email address") else None
    ensures ErrorFor(e, "password") ==
      if !Validation.IsValidPassword(f.password)
      then Some("Must be 8+ chars with 1 uppercase and 1 number") else None
    ensures ErrorFor(e, "confirmPassword") ==
      if f.password != f.rePassword then Some("Passwords don't match") else None
    ensures ErrorFor(e, "terms") == if !f.termsAccepted then Some("You must accept the terms") else None
  {
    Collect(f.name == "", !Validation.IsValidEmail(f.email), !Validation.IsValidPassword(f.password),
            f.password != f.rePassword, !f.termsAccepted)
  }

  /** Every check of `validateForm` passes. */
  predicate FormIsValid(f: SignupForm) {
    f.name != "" && Validation.IsValidEmail(f.email) && Validation.IsValidPassword(f.password) &&
    f.password == f.rePassword && f.termsAccepted
  }

  /** The map is empty exactly when the form is valid. */
  lemma {:induction false} NoErrorsIffValid(f: SignupForm)
    ensures SignupErrors(f) == map[] <==> FormIsValid(f)
  {
    var e := SignupErrors(f);
    if !FormIsValid(f) {
      if f.name == "" { assert "name" in e; }
      else if !Validation.IsValidEmail(f.email) { assert "email" in e; }
      else if !Validation.IsValidPassword(f.password) { assert "password" in e; }
      else if f.password != f.rePassword { assert "confirmPassword" in e; }
      else { assert "terms" in e; }
    } else {
      assert e.Keys == {};
    }
  }

  class SignupViewModel {
    var name: string
    var email: string
    var password: string
    var rePassword: string
    var isLoading: bool
    var errorMessage: Option<string>
    var successMessage: Option<string>
    var termsAccepted: bool
    var errors: map<string, string>

    function Form(): SignupForm
      reads this
    {
      SignupForm(name, email, password, rePassword, termsAccepted)
    }

    constructor ()
      ensures Form() == SignupForm("", "", "", "", false)
      ensures !isLoading && errorMessage.None? && successMessage.None? && errors == map[]
    {
      name, email, password, rePassword := "", "", "", "";
      isLoading, errorMessage, successMessage := false, None, None;
      termsAccepted := false;
      errors := map[];
    }

    method UpdateName(value: string)
      modifies this
      ensures Form() == old(Form()).(name := value)
      ensures isLoading == old(isLoading) && errorMessage == old(errorMessage) && errors == old(errors)
      ensures successMessage == old(successMessage)
    {
      name := value;
    }

    method UpdateEmail(value: string)
      modifies this
      ensures Form() == old(Form()).(email := value)
      ensures isLoading == old(isLoading) && errorMessage == old(errorMessage) && errors == old(errors)
      ensures successMessage == old(successMessage)
    {
      email := value;
    }

    method UpdatePassword(value: string)
      modifies this
      ensures Form() == old(Form()).(password := value)
      ensures isLoading == old(isLoading) && errorMessage == old(errorMessage) && errors == old(errors)
      ensures successMessage == old(successMessage)
    {
      password := value;
    }

    method UpdateRePassword(value: string)
      modifies this
      ensures Form() == old(Form()).(rePassword := value)
      ensures isLoading == old(isLoading) && errorMessage == old(errorMessage) && errors == old(errors)
      ensures successMessage == old(successMessage)
    {
      rePassword := value;
    }

    method UpdateTermsAccepted(value: bool)
      modifies this
      ensures Form() == old(Form()).(termsAccepted := value)
      ensures isLoading == old(isLoading) && errorMessage == old(errorMessage) && errors == old(errors)
      ensures successMessage == old(successMessage)
    {
      termsAccepted := value;
    }

    /** `validateForm()`: `errors` becomes the new map; true exactly when it is empty,
        which is exactly when every check passes. */
    method ValidateForm() returns (ok: bool)
      modifies this
      ensures errors == SignupErrors(old(Form()))
      ensures ok <==> FormIsValid(old(Form()))
      ensures Form() == old(Form()) && isLoading == old(isLoading)
      ensures errorMessage == old(errorMessage) && successMessage == old(successMessage)
    {
      var f := Form();
      var e := SignupErrors(f);
      NoErrorsIffValid(f);
      ok := e == map[];
      errors := e;
    }

    /** `signup(onSuccess)`: the result is the user passed to `onSuccess`, `None` when it
        is not called. `today` stands for `LocalDate.now()`. */
    method Signup(today: Day) returns (created: Option<User>)
      modifies this
      ensures !FormIsValid(old(Form())) ==>
        created.None? && isLoading == old(isLoading) && errorMessage == old(errorMessage) &&
        successMessage == old(successMessage)
      ensures FormIsValid(old(Form())) ==>
        created == Some(NewUser(name, email, password, today)) &&
        !isLoading && errorMessage.None? && successMessage == Some("Signup successful!")
      ensures errors == SignupErrors(old(Form()))
      ensures Form() == old(Form())
    {
      var ok := ValidateForm();
      if !ok {
        return None;
      }
      isLoading := true;
      errorMessage := None;
      // the launched coroutine, after its delay
      isLoading := false;
      successMessage := Some("Signup successful!");
      created := Some(NewUser(name, email, password, today));
    }
  }
}
