/** The new-transaction dialog (src/main/kotlin/ui/screens/create_transaction.kt): the
    form it remembers, the filter on the amount field, `validateInputs` and
    `createTransaction`. */
module TransactionForms {
  import opened Wrappers
  import opened Seqs
  import opened Text
  import opened ErrorMaps
  import opened Models
  import opened Transactions
  import Currency
  import Validation
  import MainViewModels

  // ----- which fields a type asks for -----

  /** `type.name.contains("transfer", true)`, `… "goal" …` and `… "to" …`. */
  predicate NamesTransfer(k: TransactionType) { ContainsIgnoreCase(TypeName(k), "transfer") }
  predicate NamesGoal(k: TransactionType) { ContainsIgnoreCase(TypeName(k), "goal") }
  predicate NamesRecipient(k: TransactionType) { ContainsIgnoreCase(TypeName(k), "to") }

  /** The types whose names the three tests pick out. */
  const TransferKinds: set<TransactionType> :=
    {TRANSFER_OUT, TRANSFER_OUT_TO, TRANSFER_GOAL_OUT, TRANSFER_GOAL_OUT_TO}
  const GoalKinds: set<TransactionType> :=
    {DEPOSIT_GOAL, WITHDRAW_GOAL, TRANSFER_GOAL_OUT, TRANSFER_GOAL_OUT_TO}
  const RecipientKinds: set<TransactionType> := {TRANSFER_OUT_TO, TRANSFER_GOAL_OUT_TO}

  /** The three tests on every type name: `transfer` is in the four transfer types,
      `goal` in the four goal types, and `to` only in the two types with an outside
      recipient. */
  lemma {:induction false} NameTests(k: TransactionType)
    ensures NamesTransfer(k) <==> k in TransferKinds
    ensures NamesGoal(k) <==> k in GoalKinds
    ensures NamesRecipient(k) <==> k in RecipientKinds
  {
    if k == DEPOSIT { DepositNameTests(k); }
    else if k == WITHDRAW { WithdrawNameTests(k); }
    else if k == TRANSFER_OUT { TransferOutNameTests(k); }
    else if k == TRANSFER_OUT_TO { TransferOutToNameTests(k); }
    else if k == DEPOSIT_GOAL { DepositGoalNameTests(k); }
    else if k == WITHDRAW_GOAL { WithdrawGoalNameTests(k); }
    else if k == TRANSFER_GOAL_OUT { TransferGoalOutNameTests(k); }
    else { TransferGoalOutToNameTests(k); }
  }

  lemma DepositNameTests(k: TransactionType)
    requires k == DEPOSIT
    ensures !NamesTransfer(k) && !NamesGoal(k) && !NamesRecipient(k)
  {
    NoLeadingPair(TypeName(k), "transfer");
    NoLeadingPair(TypeName(k), "goal");
    NoLeadingPair(TypeName(k), "to");
  }

  lemma WithdrawNameTests(k: TransactionType)
    requires k == WITHDRAW
    ensures !NamesTransfer(k) && !NamesGoal(k) && !NamesRecipient(k)
  {
    NoLeadingPair(TypeName(k), "transfer");
    NoLeadingPair(TypeName(k), "goal");
    NoLeadingPair(TypeName(k), "to");
  }

  lemma TransferOutNameTests(k: TransactionType)
    requires k == TRANSFER_OUT
    ensures NamesTransfer(k) && !NamesGoal(k) && !NamesRecipient(k)
  {
    assert MatchesAt(TypeName(k), "transfer", 0);
    NoLeadingPair(TypeName(k), "goal");
    NoLeadingPair(TypeName(k), "to");
  }

  lemma TransferOutToNameTests(k: TransactionType)
    requires k == TRANSFER_OUT_TO
    ensures NamesTransfer(k) && !NamesGoal(k) && NamesRecipient(k)
  {
    assert MatchesAt(TypeName(k), "transfer", 0);
    NoLeadingPair(TypeName(k), "goal");
    assert MatchesAt(TypeName(k), "to", 13);
  }

  lemma DepositGoalNameTests(k: TransactionType)
    requires k == DEPOSIT_GOAL
    ensures !NamesTransfer(k) && NamesGoal(k) && !NamesRecipient(k)
  {
    NoLeadingPair(TypeName(k), "transfer");
    assert MatchesAt(TypeName(k), "goal", 8);
    NoLeadingPair(TypeName(k), "to");
  }

  lemma WithdrawGoalNameTests(k: TransactionType)
    requires k == WITHDRAW_GOAL
    ensures !NamesTransfer(k) && NamesGoal(k) && !NamesRecipient(k)
  {
    NoLeadingPair(TypeName(k), "transfer");
    assert MatchesAt(TypeName(k), "goal", 9);
    NoLeadingPair(TypeName(k), "to");
  }

  lemma TransferGoalOutNameTests(k: TransactionType)
    requires k == TRANSFER_GOAL_OUT
    ensures NamesTransfer(k) && NamesGoal(k) && !NamesRecipient(k)
  {
    assert MatchesAt(TypeName(k), "transfer", 0);
    assert MatchesAt(TypeName(k), "goal", 9);
    NoLeadingPair(TypeName(k), "to");
  }

  lemma TransferGoalOutToNameTests(k: TransactionType)
    requires k == TRANSFER_GOAL_OUT_TO
    ensures NamesTransfer(k) && NamesGoal(k) && NamesRecipient(k)
  {
    assert MatchesAt(TypeName(k), "transfer", 0);
    assert MatchesAt(TypeName(k), "goal", 9);
    assert MatchesAt(TypeName(k), "to", 18);
  }

  // ----- the form -----

  /** The dialog's inputs: the selected type, the amount text, the selected source and
      target records (null when nothing is selected) and the recipient's email. */
  datatype TransactionInput = TransactionInput(
    kind: TransactionType, amount: string,
    account: Option<BankAccount>, toAccount: Option<BankAccount>,
    goal: Option<SavingsGoal>, toGoal: Option<SavingsGoal>,
    recipientEmail: string)

  const Keys: set<string> := {"amount", "account", "toAccount", "goalName", "toGoalName", "recipientEmail"}

  /** `validateInputs`' error map, its tests on the type's name resolved to the sets of
      types they pick out. Goal types still ask for a source account, and the goal
      transfer types also ask for a target account. Nothing checks that the amount
      parses. */
  function InputErrors(f: TransactionInput): (e: map<string, string>)
    ensures e.Keys <= Keys
    ensures ErrorFor(e, "amount") == if IsBlank(f.amount) then Some("Amount is required") else None
    ensures ErrorFor(e, "account") ==
      if f.account.None? then Some("Account number is required") else None
    ensures ErrorFor(e, "toAccount") ==
      if f.kind in TransferKinds && f.toAccount.None? then Some("Target Account number is required")
      else None
    ensures ErrorFor(e, "goalName") ==
      if f.kind in GoalKinds && f.goal.None? then Some("Goal Name is required") else None
    ensures ErrorFor(e, "toGoalName") ==
      if f.kind in GoalKinds && f.kind in TransferKinds && f.toGoal.None?
      then Some("Target Goal Name is required") else None
    ensures ErrorFor(e, "recipientEmail") ==
      if f.kind in RecipientKinds && !Validation.IsValidEmail(f.recipientEmail)
      then Some("Recipient Email is required") else None
  {
    NameTests(f.kind);
    Collect(IsBlank(f.amount), f.account.None?, NamesTransfer(f.kind), f.toAccount.None?,
            NamesGoal(f.kind), f.goal.None?, f.toGoal.None?,
            NamesRecipient(f.kind), !Validation.IsValidEmail(f.recipientEmail))
  }

  /** The `put`s of `validateInputs` over the outcome of its tests, nested as in the
      source. */
  function Collect(amountBlank: bool, noAccount: bool, transfer: bool, noToAccount: bool,
                   goal: bool, noGoal: bool, noToGoal: bool, recipient: bool, emailBad: bool)
    : (e: map<string, string>)
    ensures e.Keys <= Keys
    ensures ErrorFor(e, "amount") == if amountBlank then Some("Amount is required") else None
    ensures ErrorFor(e, "account") == if noAccount then Some("Account number is required") else None
    ensures ErrorFor(e, "toAccount") ==
      if transfer && noToAccount then Some("Target Account number is required") else None
    ensures ErrorFor(e, "goalName") == if goal && noGoal then Some("Goal Name is required") else None
    ensures ErrorFor(e, "toGoalName") ==
      if goal && transfer && noToGoal then Some("Target Goal Name is required") else None
    ensures ErrorFor(e, "recipientEmail") ==
      if recipient && emailBad then Some("Recipient Email is required") else None
  {
    var e3 := AccountPuts(amountBlank, noAccount, transfer, noToAccount);
    GoalAndRecipientPuts(e3, transfer, goal, noGoal, noToGoal, recipient, emailBad)
  }

  /** The first three `put`s, on an empty map. */
  function AccountPuts(amountBlank: bool, noAccount: bool, transfer: bool, noToAccount: bool)
    : (e: map<string, string>)
    ensures e.Keys <= {"amount", "account", "toAccount"}
    ensures ErrorFor(e, "amount") == if amountBlank then Some("Amount is required") else None
    ensures ErrorFor(e, "account") == if noAccount then Some("Account number is required") else None
    ensures ErrorFor(e, "toAccount") ==
      if transfer && noToAccount then Some("Target Account number is required") else None
  {
    var e1 := PutIf(map[], "amount", amountBlank, "Amount is required");
    var e2 := PutIf(e1, "account", noAccount, "Account number is required");
    PutIf(e2, "toAccount", transfer && noToAccount, "Target Account number is required")
  }

  /** The last three `put`s; the keys already in `e` keep their messages. */
  function GoalAndRecipientPuts(e: map<string, string>, transfer: bool, goal: bool, noGoal: bool,
                                noToGoal: bool, recipient: bool, emailBad: bool)
    : (r: map<string, string>)
    requires e.Keys <= {"amount", "account", "toAccount"}
    ensures r.Keys <= Keys
    ensures forall k :: k in {"amount", "account", "toAccount"} ==> ErrorFor(r, k) == ErrorFor(e, k)
    ensures ErrorFor(r, "goalName") == if goal && noGoal then Some("Goal Name is required") else None
    ensures ErrorFor(r, "toGoalName") ==
      if goal && transfer && noToGoal then Some("Target Goal Name is required") else None
    ensures ErrorFor(r, "recipientEmail") ==
      if recipient && emailBad then Some("Recipient Email is required") else None
  {
    var e4 := PutIf(e, "goalName", goal && noGoal, "Goal Name is required");
    var e5 := PutIf(e4, "toGoalName", goal && transfer && noToGoal, "Target Goal Name is required");
    PutIf(e5, "recipientEmail", recipient && emailBad, "Recipient Email is required")
  }

  /** Every check of `validateInputs` passes. */
  predicate InputIsValid(f: TransactionInput) {
    !IsBlank(f.amount) && f.account.Some? &&
    (f.kind in TransferKinds ==> f.toAccount.Some?) &&
    (f.kind in GoalKinds ==> f.goal.Some?) &&
    (f.kind in GoalKinds && f.kind in TransferKinds ==> f.toGoal.Some?) &&
    (f.kind in RecipientKinds ==> Validation.IsValidEmail(f.recipientEmail))
  }

  /** The map is empty exactly when the input is valid. */
  lemma {:induction false} NoErrorsIffValid(f: TransactionInput)
    ensures InputErrors(f) == map[] <==> InputIsValid(f)
  {
    var e := InputErrors(f);
    if !InputIsValid(f) {
      if IsBlank(f.amount) { assert "amount" in e; }
      else if f.account.None? { assert "account" in e; }
      else if f.kind in TransferKinds && f.toAccount.None? { assert "toAccount" in e; }
      else if f.kind in GoalKinds && f.goal.None? { assert "goalName" in e; }
      else if f.kind in GoalKinds && f.kind in TransferKinds && f.toGoal.None? { assert "toGoalName" in e; }
      else { assert "recipientEmail" in e; }
    } else {
      assert e.Keys == {};
    }
  }

  /** `createTransaction()`: the type's name, the selected records' number and name (null
      when none is selected), the recipient's email, the default currency's `code`, and
      the amount through `toDouble()`. `None` is the `NumberFormatException` that
      `toDouble()` throws on text with no digit or with two dots. `now` stands for
      `LocalDateTime.now()`. The record reads back the chosen type and currency. */
  function CreateTransaction(f: TransactionInput, currency: Currency.CurrencyType, now: Instant)
    : (r: Option<Transaction>)
    requires forall i :: 0 <= i < |f.amount| ==> IsDigitOrDot(f.amount[i])
    ensures r.Some? <==> IsDecimalText(f.amount) && HasDigit(f.amount)
    ensures r.Some? ==> GetTheTransactionType(r.value) == Some(f.kind)
    ensures r.Some? ==> GetTheCurrency(r.value) == currency
    ensures r.Some? ==> r.value.amount.Some? && r.value.amount.value >= 0.0
    ensures r.Some? ==> IsDecimalText(f.amount) && r.value.amount == ParseDecimal(f.amount)
    ensures r.Some? ==> r.value.id == Some("") && r.value.timestamp == Some(now)
    ensures r.Some? ==> r.value.typeName == Some(TypeName(f.kind))
    ensures r.Some? ==> r.value.currency == Some(Currency.Code(currency))
    ensures r.Some? ==> r.value.accountNumber == (if f.account.Some? then f.account.value.accountNumber else None)
    ensures r.Some? ==> r.value.goalName == (if f.goal.Some? then f.goal.value.goalName else None)
    ensures r.Some? ==>
      r.value.targetAccountNumber == (if f.toAccount.Some? then f.toAccount.value.accountNumber else None)
    ensures r.Some? ==> r.value.targetGoalName == (if f.toGoal.Some? then f.toGoal.value.goalName else None)
    ensures r.Some? ==> r.value.targetUserEmail == Some(f.recipientEmail)
  {
    ValueOfName(f.kind);
    Currency.FindByCode(currency);
    match ParseDigitsAndDots(f.amount)
    case None => None
    case Some(v) =>
      Some(Transaction(Some(""), Some(TypeName(f.kind)),
                       if f.account.Some? then f.account.value.accountNumber else None,
                       if f.goal.Some? then f.goal.value.goalName else None,
                       if f.toAccount.Some? then f.toAccount.value.accountNumber else None,
                       if f.toGoal.Some? then f.toGoal.value.goalName else None,
                       Some(f.recipientEmail), Some(v), Some(now), Some(Currency.Code(currency))))
  }

  /** The amount "1.2.3" is not blank, so it passes validation, yet `toDouble()` refuses
      it: the Create action then throws. */
  lemma {:induction false} TwoDotsPassValidationButDoNotParse(f: TransactionInput, c: Currency.CurrencyType, now: Instant)
    requires f.amount == "1.2.3"
    ensures ErrorFor(InputErrors(f), "amount").None?
    ensures (forall i :: 0 <= i < |f.amount| ==> IsDigitOrDot(f.amount[i])) &&
      CreateTransaction(f, c, now).None?
  {
    assert !IsWhitespace(f.amount[0]);
    OneTwoThreeIsDigitsAndDots(f.amount);
    DecimalTextIsDigitsWithOneDot(f.amount);
    assert f.amount[1] == '.' && f.amount[3] == '.';
  }

  lemma OneTwoThreeIsDigitsAndDots(s: string)
    requires s == "1.2.3"
    ensures forall i :: 0 <= i < |s| ==> IsDigitOrDot(s[i])
  {
    forall i | 0 <= i < |s| ensures IsDigitOrDot(s[i]) {
      assert s[i] in {'1', '.', '2', '3'};
    }
  }

  /** `xs.filter { it != x }.firstOrNull()`: the first element other than `x`. */
  function FirstOther<T(==)>(xs: seq<T>, x: Option<T>): (r: Option<T>)
    ensures r.None? <==> forall i :: 0 <= i < |xs| ==> Some(xs[i]) == x
    ensures r.Some? ==> r.value in xs && Some(r.value) != x
  {
    FindFirst(xs, (y: T) => Some(y) != x)
  }

  /** The dialog's remembered state. The amount field only ever holds digits and dots,
      since every edit goes through the filter. */
  class AddTransactionForm {
    var kind: TransactionType
    var amount: string
    var account: Option<BankAccount>
    var toAccount: Option<BankAccount>
    var goal: Option<SavingsGoal>
    var toGoal: Option<SavingsGoal>
    var recipientEmail: string
    var errors: map<string, string>

    ghost predicate Valid()
      reads this
    {
      forall i :: 0 <= i < |amount| ==> IsDigitOrDot(amount[i])
    }

    function Input(): TransactionInput
      reads this
    {
      TransactionInput(kind, amount, account, toAccount, goal, toGoal, recipientEmail)
    }

    /** DEPOSIT, an empty amount, the first account and goal (`firstOrNull`), and as
        targets the first account and goal different from those. */
    constructor (vm: MainViewModels.MainViewModel)
      ensures Valid()
      ensures kind == DEPOSIT && amount == "" && recipientEmail == "" && errors == map[]
      ensures account == (if |vm.accounts| > 0 then Some(vm.accounts[0]) else None)
      ensures goal == (if |vm.goals| > 0 then Some(vm.goals[0]) else None)
      ensures toAccount == FirstOther(vm.accounts, account)
      ensures toGoal == FirstOther(vm.goals, goal)
    {
      kind, amount, recipientEmail, errors := DEPOSIT, "", "", map[];
      var first := if |vm.accounts| > 0 then Some(vm.accounts[0]) else None;
      var firstGoal := if |vm.goals| > 0 then Some(vm.goals[0]) else None;
      account := first;
      goal := firstGoal;
      toAccount := FirstOther(vm.accounts, first);
      toGoal := FirstOther(vm.goals, firstGoal);
    }

    /** The amount field's `onValueChange`: every character that is not a digit or a
        dot is dropped. When the edit is already clean it is kept as typed. */
    method EditAmount(text: string)
      requires Valid()
      modifies this
      ensures Valid()
      ensures amount == KeepDigitsAndDots(text)
      ensures (forall i :: 0 <= i < |text| ==> IsDigitOrDot(text[i])) ==> amount == text
      ensures Input() == old(Input()).(amount := amount) && errors == old(errors)
    {
      amount := KeepDigitsAndDots(text);
    }

    /** `validateInputs()`: `errors` becomes the new map; true exactly when it is empty. */
    method ValidateInputs() returns (ok: bool)
      requires Valid()
      modifies this
      ensures Valid() && Input() == old(Input())
      ensures errors == InputErrors(old(Input()))
      ensures ok <==> InputIsValid(old(Input()))
    {
      var f := Input();
      var e := InputErrors(f);
      NoErrorsIffValid(f);
      ok := e == map[];
      errors := e;
    }
  }
}
