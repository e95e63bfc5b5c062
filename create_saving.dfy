/** The create-savings-goal dialog (src/main/kotlin/ui/screens/create_saving.kt): the
    form it remembers, the filters on its two amount fields, `validateForm` and
    `createSavingsGoal`. */
module SavingForms {
  import opened Wrappers
  import opened Text
  import opened ErrorMaps
  import opened Models
  import Currency
  import MainViewModels

  /** The dialog's inputs. */
  datatype GoalForm = GoalForm(goalName: string, accountNumber: string, targetAmount: string,
                               savedAmount: string, currency: Currency.CurrencyType)

  const Keys: set<string> := {"goalName", "accountNumber", "targetAmount", "savedAmount"}

  /** `s.ifBlank { d }`. */
  function IfBlank(s: string, d: string): (r: string)
    ensures IsBlank(s) ==> r == d
    ensures !IsBlank(s) ==> r == s
  {
    if IsBlank(s) then d else s
  }

  /** Filtered text is blank only when it is empty: digits and dots are not whitespace. */
  lemma {:induction false} DecimalTextBlankIsEmpty(s: string)
    requires IsDecimalText(s)
    ensures IsBlank(s) <==> s == ""
  {
    if s != [] {
      DecimalTextIsDigitsWithOneDot(s);
      assert IsDigitOrDot(s[0]);
    }
  }

  /** The saved-amount text that is parsed: an empty field reads as "0". */
  function SavedText(s: string): (r: string)
    requires IsDecimalText(s)
    ensures IsDecimalText(r)
    ensures r == if s == "" then "0" else s
  {
    DecimalTextBlankIsEmpty(s);
    assert LeadingDigits("0") == 1;
    IfBlank(s, "0")
  }

  /** The puts of `validateForm` in source order, over the blank tests and the two
      parsed amounts (`null` when the text does not parse). */
  function Collect(goalBlank: bool, accountBlank: bool, target: Option<real>, saved: Option<real>)
    : (e: map<string, string>)
    ensures e.Keys <= Keys
    ensures ErrorFor(e, "goalName") == if goalBlank then Some("Goal name is required") else None
    ensures ErrorFor(e, "accountNumber") ==
      if accountBlank then Some("Account number is required") else None
    ensures ErrorFor(e, "targetAmount") ==
      if target.None? then Some("Invalid amount")
      else if target.value <= 0.0 then Some("Must be positive amount") else None
    ensures ErrorFor(e, "savedAmount") ==
      if saved.None? then Some("Invalid amount")
      else if saved.value < 0.0 then Some("Cannot be negative") else None
  {
    var e1 := PutIf(map[], "goalName", goalBlank, "Goal name is required");
    var e2 := PutIf(e1, "accountNumber", accountBlank, "Account number is required");
    AmountPuts(e2, target, saved)
  }

  /** The two amount checks, on top of the map `e` built so far. In each, `?.let { … }`
      runs on a parsed value and `?: run { … }` on null. */
  function AmountPuts(e: map<string, string>, target: Option<real>, saved: Option<real>)
    : (r: map<string, string>)
    ensures r.Keys <= e.Keys + {"targetAmount", "savedAmount"}
    ensures forall k :: k != "targetAmount" && k != "savedAmount" ==> ErrorFor(r, k) == ErrorFor(e, k)
    ensures ErrorFor(r, "targetAmount") ==
      if target.None? then Some("Invalid amount")
      else if target.value <= 0.0 then Some("Must be positive amount") else ErrorFor(e, "targetAmount")
    ensures ErrorFor(r, "savedAmount") ==
      if saved.None? then Some("Invalid amount")
      else if saved.value < 0.0 then Some("Cannot be negative") else ErrorFor(e, "savedAmount")
  {
    var e1 := match target
              case Some(v) => PutIf(e, "targetAmount", v <= 0.0, "Must be positive amount")
              case None => PutIf(e, "targetAmount", true, "Invalid amount");
    match saved
    case Some(v) => PutIf(e1, "savedAmount", v < 0.0, "Cannot be negative")
    case None => PutIf(e1, "savedAmount", true, "Invalid amount")
  }

  /** `validateForm`'s error map. Both amount fields only ever hold filtered text, which
      has no sign: "Cannot be negative" is never reported, and an empty saved amount
      counts as 0 and passes. */
  function GoalErrors(f: GoalForm): (e: map<string, string>)
    requires IsDecimalText(f.targetAmount) && IsDecimalText(f.savedAmount)
    ensures e.Keys <= Keys
    ensures ErrorFor(e, "goalName") ==
      if IsBlank(f.goalName) then Some("Goal name is required") else None
    ensures ErrorFor(e, "accountNumber") ==
      if IsBlank(f.accountNumber) then Some("Account number is required") else None
    ensures ErrorFor(e, "targetAmount") ==
      if !HasDigit(f.targetAmount) then Some("Invalid amount")
      else if !HasNonZeroDigit(f.targetAmount) then Some("Must be positive amount") else None
    ensures ErrorFor(e, "savedAmount") ==
      if f.savedAmount != "" && !HasDigit(f.savedAmount) then Some("Invalid amount") else None
  {
    var saved := SavedText(f.savedAmount);
    assert HasDigit("0") by { assert IsAsciiDigit("0"[0]); }
    Collect(IsBlank(f.goalName), IsBlank(f.accountNumber),
            ParseDecimal(f.targetAmount), ParseDecimal(saved))
  }

  /** Every check of `validateForm` passes. */
  predicate FormIsValid(f: GoalForm) {
    !IsBlank(f.goalName) && !IsBlank(f.accountNumber) && HasNonZeroDigit(f.targetAmount) &&
    (f.savedAmount == "" || HasDigit(f.savedAmount))
  }

  /** The map is empty exactly when the form is valid. */
  lemma {:induction false} NoErrorsIffValid(f: GoalForm)
    requires IsDecimalText(f.targetAmount) && IsDecimalText(f.savedAmount)
    ensures GoalErrors(f) == map[] <==> FormIsValid(f)
  {
    var e := GoalErrors(f);
    if !FormIsValid(f) {
      if IsBlank(f.goalName) { assert "goalName" in e; }
      else if IsBlank(f.accountNumber) { assert "accountNumber" in e; }
      else if !HasNonZeroDigit(f.targetAmount) { assert "targetAmount" in e; }
      else { assert "savedAmount" in e; }
    } else {
      assert e.Keys == {};
    }
  }

  /** `createSavingsGoal()`: each amount parsed with 0.0 when it does not parse (the
      saved amount after `ifBlank { "0" }`), the chosen currency's `name`, and
      `LocalDate.now()` as `today`. Neither amount is ever negative. */
  function CreateSavingsGoal(f: GoalForm, today: Day): (g: SavingsGoal)
    requires IsDecimalText(f.targetAmount) && IsDecimalText(f.savedAmount)
    ensures g.goalName == Some(f.goalName) && g.accountNumber == Some(f.accountNumber)
    ensures g.createdAt == Some(today) && g.id == Some("")
    ensures g.targetAmount.Some? && g.targetAmount.value >= 0.0
    ensures g.targetAmount.value > 0.0 <==> HasNonZeroDigit(f.targetAmount)
    ensures g.savedAmount.Some? && g.savedAmount.value >= 0.0
    ensures g.savedAmount.value > 0.0 <==> HasNonZeroDigit(f.savedAmount)
    ensures g.currency.Some? && Currency.Find(g.currency.value) == f.currency
  {
    Currency.NameIsCode(f.currency);
    var saved := SavedText(f.savedAmount);
    assert HasDigit("0") by { assert IsAsciiDigit("0"[0]); }
    assert !HasNonZeroDigit("0") by { assert forall i | 0 <= i < 1 :: "0"[i] == '0'; }
    SavingsGoal(Some(""), Some(f.accountNumber), Some(f.goalName),
                Some(ParseDecimal(f.targetAmount).GetOr(0.0)),
                Some(ParseDecimal(saved).GetOr(0.0)),
                Some(Currency.Name(f.currency)), Some(today))
  }

  /** A goal created from a validated form has a positive target. */
  lemma ValidFormCreatesPositiveTarget(f: GoalForm, today: Day)
    requires IsDecimalText(f.targetAmount) && IsDecimalText(f.savedAmount)
    requires GoalErrors(f) == map[]
    ensures CreateSavingsGoal(f, today).targetAmount.value > 0.0
  {
    NoErrorsIffValid(f);
  }

  /** The dialog's remembered state. Both amount fields only ever hold decimal text,
      since every edit goes through the filter. */
  class AddSavingsGoalForm {
    var goalName: string
    var accountNumber: string
    var targetAmount: string
    var savedAmount: string
    var currency: Currency.CurrencyType
    var isLoading: bool
    var successMessage: Option<string>
    var errors: map<string, string>

    ghost predicate Valid()
      reads this
    {
      IsDecimalText(targetAmount) && IsDecimalText(savedAmount)
    }

    function Form(): GoalForm
      reads this
    {
      GoalForm(goalName, accountNumber, targetAmount, savedAmount, currency)
    }

    /** Empty fields, the default currency, and the first account's number as the
        linked account: `accounts[0].accountNumber!!` demands a non-empty account list
        whose first entry has a number. */
    constructor (vm: MainViewModels.MainViewModel)
      requires |vm.accounts| > 0 && vm.accounts[0].accountNumber.Some?
      ensures Valid()
      ensures Form() == GoalForm("", vm.accounts[0].accountNumber.value, "", "", vm.defaultCurrency)
      ensures !isLoading && successMessage.None? && errors == map[]
    {
      goalName, targetAmount, savedAmount := "", "", "";
      accountNumber := vm.accounts[0].accountNumber.value;
      currency := vm.defaultCurrency;
      isLoading, successMessage, errors := false, None, map[];
      assert LeadingDigits("") == 0;
    }

    /** The target field's `onValueChange`: kept only when it matches `^\d*\.?\d*$`. */
    method EditTargetAmount(text: string)
      requires Valid()
      modifies this
      ensures Valid()
      ensures targetAmount == if IsDecimalText(text) then text else old(targetAmount)
      ensures Form() == old(Form()).(targetAmount := targetAmount)
      ensures isLoading == old(isLoading) && successMessage == old(successMessage)
      ensures errors == old(errors)
    {
      if IsDecimalText(text) {
        targetAmount := text;
      }
    }

    /** The saved field's `onValueChange`: kept only when it matches `^\d*\.?\d*$`. */
    method EditSavedAmount(text: string)
      requires Valid()
      modifies this
      ensures Valid()
      ensures savedAmount == if IsDecimalText(text) then text else old(savedAmount)
      ensures Form() == old(Form()).(savedAmount := savedAmount)
      ensures isLoading == old(isLoading) && successMessage == old(successMessage)
      ensures errors == old(errors)
    {
      if IsDecimalText(text) {
        savedAmount := text;
      }
    }

    /** `validateForm()`: `errors` becomes the new map; true exactly when it is empty. */
    method ValidateForm() returns (ok: bool)
      requires Valid()
      modifies this
      ensures Valid() && Form() == old(Form())
      ensures errors == GoalErrors(old(Form()))
      ensures ok <==> FormIsValid(old(Form()))
      ensures isLoading == old(isLoading) && successMessage == old(successMessage)
    {
      var f := Form();
      var e := GoalErrors(f);
      NoErrorsIffValid(f);
      ok := e == map[];
      errors := e;
    }
  }
}
