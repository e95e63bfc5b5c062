/** `LoginViewModel` (src/main/kotlin/viewModels/LoginViewModel.kt): the login form, its
    error map, and the login step, which accepts any well-formed address with a non-empty
    password: no credential is checked. */
module LoginViewModels {
  import opened Wrappers
  import opened Models
  import Validation

  predicate FormIsValid(email: string, password: string) {
    Validation.IsValidEmail(email) && password != ""
  }

  /** `validateForm`'s error map. Both entries carry the message "Invalid email address",
      the password's included. */
  function LoginErrors(email: string, password: string): (e: map<string, string>)
    ensures e.Keys <= {"email", "password"}
    ensures "email" in e <==> !Validation.IsValidEmail(email)
    ensures "password" in e <==> password == ""
    ensures "email" in e ==> e["email"] == "Invalid email address"
    ensures "password" in e ==> e["password"] == "Invalid email address"
  {
    var e1: map<string, string> := if !Validation.IsValidEmail(email) then map["email" := "Invalid email address"] else map[];
    if password == "" then e1["password" := "Invalid email address"] else e1
  }

  /** The map is empty exactly when the form is valid. */
  lemma {:induction false} NoErrorsIffValid(email: string, password: string)
    ensures LoginErrors(email, password) == map[] <==> FormIsValid(email, password)
  {
    var e := LoginErrors(email, password);
    if !Validation.IsValidEmail(email) { assert "email" in e; }
    else if password == "" { assert "password" in e; }
    else { assert e.Keys == {}; }
  }

  class LoginViewModel {
    var email: string
    var password: string
    var isLoading: bool
    var errorMessage: Option<string>
    var errors: map<string, string>
    var successMessage: Option<string>

    constructor ()
      ensures email == "" && password == ""
      ensures !isLoading && errorMessage.None? && successMessage.None? && errors == map[]
    {
      email, password := "", "";
      isLoading, errorMessage, successMessage := false, None, None;
      errors := map[];
    }

    method UpdateEmail(value: string)
      modifies this
      ensures email == value && password == old(password)
      ensures isLoading == old(isLoading) && errorMessage == old(errorMessage) && errors == old(errors)
      ensures successMessage == old(successMessage)
    {
      email := value;
    }

    method UpdatePassword(value: string)
      modifies this
      ensures password == value && email == old(email)
      ensures isLoading == old(isLoading) && errorMessage == old(errorMessage) && errors == old(errors)
      ensures successMessage == old(successMessage)
    {
      password := value;
    }

    /** `validateForm()`: `errors` becomes the new map; true exactly when it is empty. */
    method ValidateForm() returns (ok: bool)
      modifies this
      ensures errors == LoginErrors(old(email), old(password))
      ensures ok <==> errors == map[]
      ensures ok <==> FormIsValid(email, password)
      ensures email == old(email) && password == old(password) && isLoading == old(isLoading)
      ensures errorMessage == old(errorMessage) && successMessage == old(successMessage)
    {
      var e := LoginErrors(email, password);
      NoErrorsIffValid(email, password);
      errors := e;
      ok := e == map[];
    }

    /** `login(onSuccess)`: the result is the user passed to `onSuccess` (name left at its
        default ""), `None` when it is not called. `today` stands for `LocalDate.now()`. */
    method Login(today: Day) returns (signedIn: Option<User>)
      modifies this
      ensures !FormIsValid(old(email), old(password)) ==>
        signedIn.None? && isLoading == old(isLoading) && errorMessage == old(errorMessage) &&
        successMessage == old(successMessage)
      ensures FormIsValid(old(email), old(password)) ==>
        signedIn == Some(NewUser("", email, password, today)) &&
        !isLoading && errorMessage.None? && successMessage == Some("Login successful!")
      ensures errors == LoginErrors(old(email), old(password))
      ensures email == old(email) && password == old(password)
    {
      var ok := ValidateForm();
      if !ok {
        return None;
      }
      isLoading := true;
      errorMessage := None;
      // the launched coroutine, after its delay
      isLoading := false;
      successMessage := Some("Login successful!");
      signedIn := Some(NewUser("", email, password, today));
    }
  }
}
