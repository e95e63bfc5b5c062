/** The profile screen (src/main/kotlin/ui/screens/profile.kt): the form state it
    remembers, its `validateForm` with overwriting `put`s, and the Save action that
    replaces the signed-in user in the main view model. */
module ProfileScreens {
  import opened Wrappers
  import opened Models
  import opened ErrorMaps
  import Validation
  import MainViewModels

  /** The form's inputs. */
  datatype ProfileForm = ProfileForm(name: string, email: string, currentPassword: string,
                                     newPassword: string, confirmNewPassword: string)

  const Keys: set<string> := {"name", "email", "currentPassword", "newPassword", "confirmNewPassword"}

  /** The map the `apply { … }` block of `validateForm` builds, over the outcome of its
      eight tests in source order. Where two `put`s share a key the later one, when it
      happens, replaces the earlier message. */
  function Collect(nameEmpty: bool, emailBad: bool, currentEmpty: bool, currentWrong: bool,
                   newEmpty: bool, newBad: bool, confirmEmpty: bool, mismatch: bool)
    : (e: map<string, string>)
    ensures e.Keys <= Keys
    ensures ErrorFor(e, "name") == if nameEmpty then Some("Name is required") else None
    ensures ErrorFor(e, "email") == if emailBad then Some("Email is required") else None
    ensures ErrorFor(e, "currentPassword") ==
      if currentWrong then Some("Current password is incorrect")
      else if currentEmpty then Some("Current password is required") else None
    ensures ErrorFor(e, "newPassword") ==
      if newBad then Some("Must be 8+ chars with 1 uppercase and 1 number")
      else if newEmpty then Some("New password is required") else None
    ensures ErrorFor(e, "confirmNewPassword") ==
      if mismatch then Some("Passwords do not match")
      else if confirmEmpty then Some("Confirm new password is required") else None
  {
    var e0: map<string, string> := map[];
    var e1 := PutIf(e0, "name", nameEmpty, "Name is required");
    var e2 := PutIf(e1, "email", emailBad, "Email is required");
    var e3 := PutIf(e2, "currentPassword", currentEmpty, "Current password is required");
    var e4 := PutIf(e3, "currentPassword", currentWrong, "Current password is incorrect");
    var e5 := PutIf(e4, "newPassword", newEmpty, "New password is required");
    var e6 := PutIf(e5, "newPassword", newBad, "Must be 8+ chars with 1 uppercase and 1 number");
    var e7 := PutIf(e6, "confirmNewPassword", confirmEmpty, "Confirm new password is required");
    PutIf(e7, "confirmNewPassword", mismatch, "Passwords do not match")
  }

  /** `validateForm`'s error map for the form `f`; `storedHash` is `user.passwordHash`.
      The current-password entry reads "incorrect" whenever the typed text differs
      from the stored hash, so "required" survives only when both are empty. The
      empty string fails the password rule, so "New password is required" never
      survives. A mismatch overrides "Confirm new password is required", which
      survives only when both new-password fields are empty. */
  function ProfileErrors(f: ProfileForm, storedHash: Option<string>): (e: map<string, string>)
    ensures e.Keys <= Keys
    ensures ErrorFor(e, "name") == if f.name == "" then Some("Name is required") else None
    ensures ErrorFor(e, "email") ==
      if !Validation.IsValidEmail(f.email) then Some("Email is required") else None
    ensures ErrorFor(e, "currentPassword") ==
      if Some(f.currentPassword) != storedHash then Some("Current password is incorrect")
      else if f.currentPassword == "" then Some("Current password is required") else None
    ensures ErrorFor(e, "currentPassword") == Some("Current password is required") <==>
      f.currentPassword == "" && storedHash == Some("")
    ensures ErrorFor(e, "newPassword") ==
      if !Validation.IsValidPassword(f.newPassword)
      then Some("Must be 8+ chars with 1 uppercase and 1 number") else None
    ensures ErrorFor(e, "confirmNewPassword") ==
      if f.newPassword != f.confirmNewPassword then Some("Passwords do not match")
      else if f.confirmNewPassword == "" then Some("Confirm new password is required") else None
    ensures ErrorFor(e, "confirmNewPassword") == Some("Confirm new password is required") <==>
      f.newPassword == "" && f.confirmNewPassword == ""
  {
    var newBad := !Validation.IsValidPassword(f.newPassword);
    assert f.newPassword == "" ==> newBad;
    Collect(f.name == "", !Validation.IsValidEmail(f.email),
            f.currentPassword == "", Some(f.currentPassword) != storedHash,
            f.newPassword == "", newBad,
            f.confirmNewPassword == "", f.newPassword != f.confirmNewPassword)
  }

  /** Every check of `validateForm` passes. None of them looks at the edit or
      password-change switches. */
  predicate FormIsValid(f: ProfileForm, storedHash: Option<string>) {
    f.name != "" && Validation.IsValidEmail(f.email) &&
    f.currentPassword != "" && Some(f.currentPassword) == storedHash &&
    Validation.IsValidPassword(f.newPassword) && f.newPassword == f.confirmNewPassword
  }

  /** The map is empty exactly when the form is valid: a profile can only be saved
      together with a correct, non-empty current password and a valid new password
      typed twice, whichever switches are on. */
  lemma {:induction false} NoErrorsIffValid(f: ProfileForm, storedHash: Option<string>)
    ensures ProfileErrors(f, storedHash) == map[] <==> FormIsValid(f, storedHash)
  {
    var e := ProfileErrors(f, storedHash);
    if !FormIsValid(f, storedHash) {
      if f.name == "" { assert "name" in e; }
      else if !Validation.IsValidEmail(f.email) { assert "email" in e; }
      else if f.currentPassword == "" || Some(f.currentPassword) != storedHash {
        assert "currentPassword" in e;
      } else if !Validation.IsValidPassword(f.newPassword) { assert "newPassword" in e; }
      else { assert "confirmNewPassword" in e; }
    } else {
      assert e.Keys == {};
    }
  }

  /** The state the profile screen remembers across recompositions. The signed-in user
      itself is not remembered: every composition reads `viewModel.user` afresh
      (`vmUser!!`), so the operations below take the main view model and read its user
      at the moment they run. */
  class ProfileScreen {
    var name: string
    var email: string
    var currentPassword: string
    var newPassword: string
    var confirmNewPassword: string
    var isEditMode: bool
    var isChangingPassword: bool
    var errors: map<string, string>
    var successMessage: Option<string>
    var isLoading: bool

    function Form(): ProfileForm
      reads this
    {
      ProfileForm(name, email, currentPassword, newPassword, confirmNewPassword)
    }

    /** The screen's first composition: the signed-in user's name and email, empty
        password fields, both switches off, no errors. The `!!`s on the user, its name
        and its email are what the screen demands of the main view model. */
    constructor (vm: MainViewModels.MainViewModel)
      requires vm.user.Some? && vm.user.value.name.Some? && vm.user.value.email.Some?
      ensures Form() == ProfileForm(vm.user.value.name.value, vm.user.value.email.value, "", "", "")
      ensures !isEditMode && !isChangingPassword && errors == map[]
      ensures successMessage.None? && !isLoading
    {
      name := vm.user.value.name.value;
      email := vm.user.value.email.value;
      currentPassword, newPassword, confirmNewPassword := "", "", "";
      isEditMode, isChangingPassword := false, false;
      errors := map[];
      successMessage := None;
      isLoading := false;
    }

    /** `validateForm()`, against the user signed in now: the error map is cleared and
        refilled with `ProfileErrors`; the result is true exactly when it ends up empty. */
    method ValidateForm(vm: MainViewModels.MainViewModel) returns (ok: bool)
      requires vm.user.Some?
      modifies this
      ensures errors == ProfileErrors(old(Form()), vm.user.value.passwordHash)
      ensures ok <==> FormIsValid(old(Form()), vm.user.value.passwordHash)
      ensures Form() == old(Form()) && isEditMode == old(isEditMode)
      ensures isChangingPassword == old(isChangingPassword)
      ensures successMessage == old(successMessage) && isLoading == old(isLoading)
    {
      var f := Form();
      var e := ProfileErrors(f, vm.user.value.passwordHash);
      NoErrorsIffValid(f, vm.user.value.passwordHash);
      ok := e == map[];
      errors := e;
    }

    /** The Save button: on a valid form the main view model's user becomes its current
        user with the typed name, email and new password, the success message is shown,
        both switches turn off and the password fields are emptied; on an invalid form
        only the error map changes. A later Save checks against the new password. */
    method Save(vm: MainViewModels.MainViewModel) returns (saved: bool)
      requires vm.user.Some?
      modifies this, vm
      ensures saved <==> FormIsValid(old(Form()), old(vm.user.value.passwordHash))
      ensures errors == ProfileErrors(old(Form()), old(vm.user.value.passwordHash))
      ensures saved ==>
        && vm.State() == old(vm.State()).(user := Some(old(vm.user.value).(
             name := Some(old(name)), email := Some(old(email)), passwordHash := Some(old(newPassword)))))
        && successMessage == Some("Profile updated successfully!")
        && !isEditMode && !isChangingPassword && !isLoading
        && Form() == ProfileForm(old(name), old(email), "", "", "")
      ensures !saved ==>
        && vm.State() == old(vm.State())
        && Form() == old(Form()) && isEditMode == old(isEditMode)
        && isChangingPassword == old(isChangingPassword)
        && successMessage == old(successMessage) && isLoading == old(isLoading)
      ensures vm.user.Some? && (saved ==> vm.user.value.passwordHash == Some(old(newPassword)))
    {
      saved := ValidateForm(vm);
      if saved {
        Commit(vm);
      }
    }

    /** The body of Save's `if`: the user update and the reset of the form. */
    method Commit(vm: MainViewModels.MainViewModel)
      requires vm.user.Some?
      modifies this, vm
      ensures vm.State() == old(vm.State()).(user := Some(old(vm.user.value).(
        name := Some(old(name)), email := Some(old(email)), passwordHash := Some(old(newPassword)))))
      ensures successMessage == Some("Profile updated successfully!")
      ensures !isEditMode && !isChangingPassword && !isLoading && errors == old(errors)
      ensures Form() == ProfileForm(old(name), old(email), "", "", "")
    {
      isLoading := true;
      var user := vm.user.value;
      vm.UpdateUser(user.(name := Some(name), email := Some(email), passwordHash := Some(newPassword)));
      isLoading := false;
      successMessage := Some("Profile updated successfully!");
      isEditMode := false;
      isChangingPassword := false;
      currentPassword, newPassword, confirmNewPassword := "", "", "";
    }
  }

  /** Two saves in a row: the second is checked against the password the first one set,
      as the screen re-reads the signed-in user. */
  lemma SecondSaveUsesNewPassword(f: ProfileForm, u: User, next: ProfileForm)
    requires FormIsValid(f, u.passwordHash)
    requires next.currentPassword == f.newPassword
    ensures var u2 := u.(name := Some(f.name), email := Some(f.email), passwordHash := Some(f.newPassword));
      ErrorFor(ProfileErrors(next, u2.passwordHash), "currentPassword").None?
  {
    assert Validation.IsValidPassword(f.newPassword);
    assert f.newPassword != "";
  }
}
