/** The create-bank-account dialog (src/main/kotlin/ui/screens/create_account.kt): the
    form it remembers, the filter on the balance field, `validateForm` and
    `createAccount`. */
module AccountForms {
  import opened Wrappers
  import opened Text
  import opened ErrorMaps
  import opened Models
  import Currency
  import MainViewModels

  /** The dialog's inputs. */
  datatype AccountForm = AccountForm(accountNumber: string, holderName: string, bankName: string,
                                     balance: string, currency: Currency.CurrencyType)

  const Keys: set<string> := {"holderName", "accountNumber", "bankName", "balance"}

  /** `validateForm`'s error map. The balance field only ever holds text the filter let
      through, on which `toDoubleOrNull()` is null exactly when there is no digit
      ("" or "."), and the parsed value is zero exactly when every digit is '0'. */
  function AccountErrors(f: AccountForm): (e: map<string, string>)
    requires IsDecimalText(f.balance)
    ensures e.Keys <= Keys
    ensures ErrorFor(e, "holderName") ==
      if IsBlank(f.holderName) then Some("Holder name is required") else None
    ensures ErrorFor(e, "accountNumber") ==
      if IsBlank(f.accountNumber) then Some("Account number is required") else None
    ensures ErrorFor(e, "bankName") ==
      if IsBlank(f.bankName) then Some("Bank name is required") else None
    ensures ErrorFor(e, "balance") ==
      if !HasDigit(f.balance) then Some("Invalid amount")
      else if !HasNonZeroDigit(f.balance) then Some("Must be positive amount") else None
  {
    var e1 := PutIf(map[], "holderName", IsBlank(f.holderName), "Holder name is required");
    var e2 := PutIf(e1, "accountNumber", IsBlank(f.accountNumber), "Account number is required");
    var e3 := PutIf(e2, "bankName", IsBlank(f.bankName), "Bank name is required");
    match ParseDecimal(f.balance)
    case Some(v) => PutIf(e3, "balance", v <= 0.0, "Must be positive amount")
    case None => PutIf(e3, "balance", true, "Invalid amount")
  }

  /** Every check of `validateForm` passes. */
  predicate FormIsValid(f: AccountForm) {
    !IsBlank(f.holderName) && !IsBlank(f.accountNumber) && !IsBlank(f.bankName) &&
    HasNonZeroDigit(f.balance)
  }

  /** The map is empty exactly when the form is valid. */
  lemma {:induction false} NoErrorsIffValid(f: AccountForm)
    requires IsDecimalText(f.balance)
    ensures AccountErrors(f) == map[] <==> FormIsValid(f)
  {
    var e := AccountErrors(f);
    if !FormIsValid(f) {
      if IsBlank(f.holderName) { assert "holderName" in e; }
      else if IsBlank(f.accountNumber) { assert "accountNumber" in e; }
      else if IsBlank(f.bankName) { assert "bankName" in e; }
      else { assert "balance" in e; }
    } else {
      assert e.Keys == {};
    }
  }

  /** `createAccount()`: the typed fields, the balance parsed with 0.0 when it does
      not parse, the chosen currency's `name`, and `LocalDate.now()` as `today`. The
      stored balance is never negative, and it reads back the chosen currency. */
  function CreateAccount(f: AccountForm, today: Day): (a: BankAccount)
    requires IsDecimalText(f.balance)
    ensures a.accountNumber == Some(f.accountNumber) && a.holderName == Some(f.holderName)
    ensures a.bankName == Some(f.bankName) && a.createdAt == Some(today) && a.id == Some("")
    ensures a.balance.Some? && a.balance.value >= 0.0
    ensures a.balance.value > 0.0 <==> HasNonZeroDigit(f.balance)
    ensures a.currency.Some? && Currency.Find(a.currency.value) == f.currency
  {
    Currency.NameIsCode(f.currency);
    BankAccount(Some(""), Some(f.accountNumber), Some(f.holderName), Some(f.bankName),
                Some(ParseDecimal(f.balance).GetOr(0.0)), Some(Currency.Name(f.currency)),
                Some(today))
  }

  /** An account created from a validated form holds a positive balance. */
  lemma ValidFormCreatesFundedAccount(f: AccountForm, today: Day)
    requires IsDecimalText(f.balance) && AccountErrors(f) == map[]
    ensures CreateAccount(f, today).balance.value > 0.0
  {
    NoErrorsIffValid(f);
  }

  /** "0.00" parses, so it is not "Invalid amount", but it is not positive either. */
  lemma ZeroBalanceIsNotPositive(f: AccountForm)
    ensures IsDecimalText("0.00") &&
      ErrorFor(AccountErrors(f.(balance := "0.00")), "balance") == Some("Must be positive amount")
  {
    assert IsDecimalText("0.00") by { assert LeadingDigits("0.00") == 1; }
    assert HasDigit("0.00") by { assert IsAsciiDigit("0.00"[0]); }
    assert !HasNonZeroDigit("0.00") by {
      forall i | 0 <= i < 4 ensures !('1' <= "0.00"[i] <= '9') { }
    }
  }

  /** "." has no digit and does not parse. */
  lemma DotBalanceIsInvalid(f: AccountForm)
    ensures IsDecimalText(".") && ErrorFor(AccountErrors(f.(balance := ".")), "balance") == Some("Invalid amount")
  {
    assert IsDecimalText(".") by { assert LeadingDigits(".") == 0; }
  }

  /** The dialog's remembered state. The balance field only ever holds decimal text,
      since every edit goes through the filter. */
  class AddBankAccountForm {
    var accountNumber: string
    var holderName: string
    var bankName: string
    var balance: string
    var currency: Currency.CurrencyType
    var isLoading: bool
    var successMessage: Option<string>
    var errors: map<string, string>

    ghost predicate Valid()
      reads this
    {
      IsDecimalText(balance)
    }

    function Form(): AccountForm
      reads this
    {
      AccountForm(accountNumber, holderName, bankName, balance, currency)
    }

    /** Empty fields and the main view model's default currency. */
    constructor (vm: MainViewModels.MainViewModel)
      ensures Valid()
      ensures Form() == AccountForm("", "", "", "", vm.defaultCurrency)
      ensures !isLoading && successMessage.None? && errors == map[]
    {
      accountNumber, holderName, bankName, balance := "", "", "", "";
      currency := vm.defaultCurrency;
      isLoading, successMessage, errors := false, None, map[];
      assert LeadingDigits("") == 0;
    }

    /** The balance field's `onValueChange`: the edit is kept only when it matches
        `^\d*\.?\d*$`, i.e. digits with at most one dot. */
    method EditBalance(text: string)
      requires Valid()
      modifies this
      ensures Valid()
      ensures balance == if IsDecimalText(text) then text else old(balance)
      ensures IsDecimalText(text) <==>
        (forall i :: 0 <= i < |text| ==> IsDigitOrDot(text[i])) &&
        (forall i, j :: 0 <= i < j < |text| && text[i] == '.' ==> text[j] != '.')
      ensures Form() == old(Form()).(balance := balance)
      ensures isLoading == old(isLoading) && successMessage == old(successMessage)
      ensures errors == old(errors)
    {
      DecimalTextIsDigitsWithOneDot(text);
      if IsDecimalText(text) {
        balance := text;
      }
    }

    /** `validateForm()`: `errors` becomes the new map; true exactly when it is empty. */
    method ValidateForm() returns (ok: bool)
      requires Valid()
      modifies this
      ensures Valid() && Form() == old(Form())
      ensures errors == AccountErrors(old(Form()))
      ensures ok <==> FormIsValid(old(Form()))
      ensures isLoading == old(isLoading) && successMessage == old(successMessage)
    {
      var f := Form();
      var e := AccountErrors(f);
      NoErrorsIffValid(f);
      ok := e == map[];
      errors := e;
    }
  }
}
