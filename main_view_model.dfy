/** `MainViewModel` (src/main/kotlin/viewModels/MainViewModel.kt): the session's accounts,
    goals and transaction history, the selected records, the default currency and the
    navigation stack. Each `MutableState` is a field; each coroutine launched by an
    operation is modelled as one synchronous step whose `onResult` value is the method's
    result. */
module MainViewModels {
  import opened Wrappers
  import opened Seqs
  import opened Models
  import opened Transactions
  import opened Ledger
  import Currency
  import Validation

  /** One `map { … }` pass that builds a new list: the elements are stepped one at a time
      and the pass stops at the first abort. */
  method RunPass<T>(xs: seq<T>, f: T -> Step<T>) returns (items: seq<T>, fault: Option<Fault>)
    ensures Pass(items, fault) == MapUntil(xs, f)
  {
    var done: seq<T> := [];
    var i := 0;
    while i < |xs|
      invariant 0 <= i <= |xs| && |done| == i
      invariant BuiltUpTo(xs, f, done, i)
    {
      var step := f(xs[i]);
      if step.Abort? {
        BuiltAbort(xs, f, done, i);
        return done + xs[i..], Some(step.fault);
      }
      BuiltAdvance(xs, f, done, i);
      done := done + [Stepped(step, xs[i])];
      i := i + 1;
    }
    assert xs[i..] == [];
    assert done + [] == done;
    return done, None;
  }

  /** The shape of a copying pass before element `i`: `done` holds the stepped
      `xs[..i]`, and the pass over `xs[i..]` supplies the rest. */
  ghost predicate BuiltUpTo<T>(xs: seq<T>, f: T -> Step<T>, done: seq<T>, i: nat)
    requires i <= |xs|
  {
    MapUntil(xs, f) == Pass(done + MapUntil(xs[i..], f).items, MapUntil(xs[i..], f).fault)
  }

  /** An abort at element `i` ends the pass with the rest untouched. */
  lemma {:induction false} BuiltAbort<T>(xs: seq<T>, f: T -> Step<T>, done: seq<T>, i: nat)
    requires i < |xs| && BuiltUpTo(xs, f, done, i) && f(xs[i]).Abort?
    ensures MapUntil(xs, f) == Pass(done + xs[i..], Some(f(xs[i]).fault))
  {
    MapUntilAt(xs, f, i);
  }

  /** Otherwise the stepped element joins `done`. */
  lemma {:induction false} BuiltAdvance<T>(xs: seq<T>, f: T -> Step<T>, done: seq<T>, i: nat)
    requires i < |xs| && BuiltUpTo(xs, f, done, i) && !f(xs[i]).Abort?
    ensures BuiltUpTo(xs, f, done + [Stepped(f(xs[i]), xs[i])], i + 1)
  {
    MapUntilAt(xs, f, i);
    var rest := MapUntil(xs[i + 1..], f).items;
    assert done + ([Stepped(f(xs[i]), xs[i])] + rest) == (done + [Stepped(f(xs[i]), xs[i])]) + rest;
  }

  /** The shape of an in-place pass before element `i`: `cur` holds the stepped
      `xs[..i]` followed by the untouched `xs[i..]`. */
  ghost predicate SteppedUpTo<T>(xs: seq<T>, f: T -> Step<T>, cur: seq<T>, i: nat) {
    && |cur| == |xs| && i <= |xs| && cur[i..] == xs[i..]
    && MapUntil(xs, f) == Pass(cur[..i] + MapUntil(xs[i..], f).items, MapUntil(xs[i..], f).fault)
  }

  /** An abort at element `i` ends the pass with `cur` as it stands. */
  lemma {:induction false} InPlaceAbort<T>(xs: seq<T>, f: T -> Step<T>, cur: seq<T>, i: nat)
    requires i < |xs| && SteppedUpTo(xs, f, cur, i) && f(xs[i]).Abort?
    ensures MapUntil(xs, f) == Pass(cur, Some(f(xs[i]).fault))
  {
    MapUntilAt(xs, f, i);
    assert cur == cur[..i] + cur[i..];
  }

  /** Replacing element `i` of `cur` extends its prefix by one and leaves the suffix. */
  lemma ReplaceShift<T>(cur: seq<T>, xs: seq<T>, i: nat, x: T, rest: seq<T>)
    requires |cur| == |xs| && i < |xs| && cur[i..] == xs[i..]
    ensures cur[i := x][..i + 1] + rest == cur[..i] + ([x] + rest)
    ensures cur[i := x][i + 1..] == xs[i + 1..]
  {
    assert cur[i := x][..i + 1] == cur[..i] + [x];
    assert cur[i + 1..] == cur[i..][1..];
  }

  /** Otherwise replacing element `i` by its stepped value keeps the shape one further. */
  lemma {:induction false} InPlaceAdvance<T>(xs: seq<T>, f: T -> Step<T>, cur: seq<T>, i: nat)
    requires i < |xs| && SteppedUpTo(xs, f, cur, i) && !f(xs[i]).Abort?
    ensures SteppedUpTo(xs, f, cur[i := Stepped(f(xs[i]), xs[i])], i + 1)
  {
    MapUntilAt(xs, f, i);
    ReplaceShift(cur, xs, i, Stepped(f(xs[i]), xs[i]), MapUntil(xs[i + 1..], f).items);
  }

  /** Element `i` of a pass in that shape is still the original one. */
  lemma SteppedUpToHead<T>(xs: seq<T>, f: T -> Step<T>, cur: seq<T>, i: nat)
    requires i < |xs| && SteppedUpTo(xs, f, cur, i)
    ensures cur[i] == xs[i]
  {
    assert cur[i..][0] == xs[i..][0];
  }

  /** Every field of `MainViewModel` as one value, so that each operation can say what it
      changes and, by omission, keep the rest. */
  datatype VmState = VmState(
    accounts: seq<BankAccount>, goals: seq<SavingsGoal>, transactions: seq<Transaction>,
    user: Option<User>, activeAccount: Option<BankAccount>, activeGoal: Option<SavingsGoal>,
    activeTransaction: Option<Transaction>, defaultCurrency: Currency.CurrencyType,
    navStack: seq<Screen>, loadingStates: LoadingStates)

  class MainViewModel {
    var accounts: seq<BankAccount>
    var goals: seq<SavingsGoal>
    var transactions: seq<Transaction>
    var user: Option<User>
    var activeAccount: Option<BankAccount>
    var activeGoal: Option<SavingsGoal>
    var activeTransaction: Option<Transaction>
    var defaultCurrency: Currency.CurrencyType
    var navStack: seq<Screen>
    var loadingStates: LoadingStates

    /** The stack is never empty once `init` has run. */
    ghost predicate Valid()
      reads this
    {
      |navStack| >= 1
    }

    /** The three collections `addTransaction` works on. */
    function Ledger(): Books
      reads this
    {
      Books(accounts, goals, transactions)
    }

    function State(): VmState
      reads this
    {
      VmState(accounts, goals, transactions, user, activeAccount, activeGoal, activeTransaction,
              defaultCurrency, navStack, loadingStates)
    }

    /** The property initialisers, then `init`, which pushes Login on the empty stack. */
    constructor ()
      ensures accounts == [] && goals == [] && transactions == []
      ensures user.None? && activeAccount.None? && activeGoal.None? && activeTransaction.None?
      ensures defaultCurrency == Currency.USD
      ensures loadingStates == LoadingStates(false, false, false, false, false)
      ensures navStack == [Login] && Valid()
      ensures CurrentScreen() == Login && !HasBack()
    {
      accounts, goals, transactions := [], [], [];
      user, activeAccount, activeGoal, activeTransaction := None, None, None, None;
      defaultCurrency := Currency.USD;
      loadingStates := LoadingStates(false, false, false, false, false);
      navStack := [];
      new;
      if navStack == [] {
        navStack := navStack + [Login];
      }
    }

    // ----- navigation -----

    /** `currentScreen`: the top of the stack, or Login when the stack is empty. */
    function CurrentScreen(): (s: Screen)
      reads this
      ensures navStack == [] ==> s == Login
      ensures navStack != [] ==> s == navStack[|navStack| - 1]
    {
      if navStack == [] then Login else navStack[|navStack| - 1]
    }

    /** `hasBack()` */
    function HasBack(): (b: bool)
      reads this
      ensures b <==> |navStack| > 1
    {
      |navStack| > 1
    }

    /** `navigateTo(screen)`: pushes `screen`, which becomes current, with a way back to
        whatever was on the stack. */
    method NavigateTo(screen: Screen)
      modifies this
      ensures State() == old(State()).(navStack := old(navStack) + [screen])
      ensures CurrentScreen() == screen && Valid()
      ensures HasBack() <==> old(navStack) != []
    {
      navStack := navStack + [screen];
    }

    /** `navigateBack()`: `_navStack.value -= last()`. `List.minus` removes the FIRST
        occurrence of the top screen, which is not the top when that screen is on the stack
        twice: then the top stays current (see BackKeepsDuplicatedTop). */
    method NavigateBack()
      modifies this
      ensures old(HasBack()) ==>
        State() == old(State()).(navStack := RemoveFirst(old(navStack), old(CurrentScreen())))
      ensures !old(HasBack()) ==> State() == old(State())
      ensures old(HasBack()) <==> navStack != old(navStack)
      ensures old(HasBack()) ==> |navStack| == old(|navStack|) - 1
      ensures old(HasBack()) && old(CurrentScreen()) in old(navStack)[..old(|navStack|) - 1] ==>
        CurrentScreen() == old(CurrentScreen())
      ensures old(Valid()) ==> Valid()
    {
      if |navStack| > 1 {
        var top := navStack[|navStack| - 1];
        if top in navStack[..|navStack| - 1] {
          BackKeepsDuplicatedTop(navStack);
        }
        navStack := RemoveFirst(navStack, top);
      }
    }

    /** `clearNavigationStack(screen)`: the stack becomes `screen` alone. */
    method ClearNavigationStack(screen: Screen)
      modifies this
      ensures State() == old(State()).(navStack := [screen])
      ensures CurrentScreen() == screen && !HasBack() && Valid()
    {
      navStack := [screen];
    }

    /** `logout()`: back to Login alone, with no user. */
    method Logout()
      modifies this
      ensures State() == old(State()).(navStack := [Login], user := None)
      ensures CurrentScreen() == Login && !HasBack() && Valid()
    {
      ClearNavigationStack(Login);
      user := None;
    }

    // ----- collections -----

    /** `addAccount`: appends and reports the account back. */
    method AddAccount(account: BankAccount) returns (r: Result<BankAccount, Fault>)
      modifies this
      ensures State() == old(State()).(accounts := old(accounts) + [account])
      ensures r == Success(account)
    {
      accounts := accounts + [account];
      r := Success(account);
    }

    /** `addSavingsGoal`: appends and reports the goal back. */
    method AddSavingsGoal(goal: SavingsGoal) returns (r: Result<SavingsGoal, Fault>)
      modifies this
      ensures State() == old(State()).(goals := old(goals) + [goal])
      ensures r == Success(goal)
    {
      goals := goals + [goal];
      r := Success(goal);
    }

    /** `filter { it != account }`: every structurally equal copy goes, the rest keep their
        order (see Seqs.RemoveAllSnoc). */
    method DeleteAccount(account: BankAccount)
      modifies this
      ensures State() == old(State()).(accounts := RemoveAll(old(accounts), account))
      ensures account !in accounts
      ensures multiset(accounts) == multiset(old(accounts))[account := 0]
    {
      accounts := RemoveAll(accounts, account);
    }

    method DeleteSavingsGoal(goal: SavingsGoal)
      modifies this
      ensures State() == old(State()).(goals := RemoveAll(old(goals), goal))
      ensures goal !in goals
      ensures multiset(goals) == multiset(old(goals))[goal := 0]
    {
      goals := RemoveAll(goals, goal);
    }

    method DeleteTransaction(transaction: Transaction)
      modifies this
      ensures State() == old(State()).(transactions := RemoveAll(old(transactions), transaction))
      ensures transaction !in transactions
      ensures multiset(transactions) == multiset(old(transactions))[transaction := 0]
    {
      transactions := RemoveAll(transactions, transaction);
    }

    // ----- selections and session -----

    method SetActiveAccount(account: BankAccount)
      modifies this
      ensures State() == old(State()).(activeAccount := Some(account))
    {
      activeAccount := Some(account);
    }

    method RemoveActiveAccount()
      modifies this
      ensures State() == old(State()).(activeAccount := None)
    {
      activeAccount := None;
    }

    method SetActiveGoal(goal: SavingsGoal)
      modifies this
      ensures State() == old(State()).(activeGoal := Some(goal))
    {
      activeGoal := Some(goal);
    }

    method RemoveActiveGoal()
      modifies this
      ensures State() == old(State()).(activeGoal := None)
    {
      activeGoal := None;
    }

    method SetActiveTransaction(transaction: Transaction)
      modifies this
      ensures State() == old(State()).(activeTransaction := Some(transaction))
    {
      activeTransaction := Some(transaction);
    }

    method RemoveActiveTransaction()
      modifies this
      ensures State() == old(State()).(activeTransaction := None)
    {
      activeTransaction := None;
    }

    /** `setUser` and `updateUser` have the same body. */
    method SetUser(u: User)
      modifies this
      ensures State() == old(State()).(user := Some(u))
    {
      user := Some(u);
    }

    method UpdateUser(u: User)
      modifies this
      ensures State() == old(State()).(user := Some(u))
    {
      user := Some(u);
    }

    method SetDefaultCurrency(currency: Currency.CurrencyType)
      modifies this
      ensures State() == old(State()).(defaultCurrency := currency)
    {
      defaultCurrency := currency;
    }

    // ----- remote lookups -----

    /** `getAccountsForEmail`: an address the expression rejects fails at once; otherwise
        the result is the simulator's list, here the parameter `generated`. */
    method GetAccountsForEmail(email: string, generated: seq<BankAccount>) returns (r: Result<seq<BankAccount>, string>)
      ensures !Validation.IsValidEmail(email) ==> r == Failure("Invalid Email Address")
      ensures Validation.IsValidEmail(email) ==> r == Success(generated)
    {
      if !Validation.IsValidEmail(email) {
        return Failure("Invalid Email Address");
      }
      return Success(generated);
    }

    method GetGoalsForEmail(email: string, generated: seq<SavingsGoal>) returns (r: Result<seq<SavingsGoal>, string>)
      ensures !Validation.IsValidEmail(email) ==> r == Failure("Invalid Email Address")
      ensures Validation.IsValidEmail(email) ==> r == Success(generated)
    {
      if !Validation.IsValidEmail(email) {
        return Failure("Invalid Email Address");
      }
      return Success(generated);
    }

    // ----- addTransaction -----

    /** The DEPOSIT pass, which assigns `it.balance` on the listed objects themselves: each
        credit lands in `accounts` as it is made, so a throw part-way leaves the earlier
        credits in place. */
    method StepInPlace(f: BankAccount -> Step<BankAccount>) returns (fault: Option<Fault>)
      modifies this
      ensures Pass(accounts, fault) == MapUntil(old(accounts), f)
      ensures State() == old(State()).(accounts := accounts)
    {
      ghost var xs := accounts;
      var i := 0;
      while i < |accounts|
        invariant SteppedUpTo(xs, f, accounts, i)
        invariant State() == old(State()).(accounts := accounts)
      {
        SteppedUpToHead(xs, f, accounts, i);
        var step := f(accounts[i]);
        if step.Abort? {
          InPlaceAbort(xs, f, accounts, i);
          return Some(step.fault);
        }
        InPlaceAdvance(xs, f, accounts, i);
        accounts := accounts[i := Stepped(step, accounts[i])];
        i := i + 1;
      }
      assert xs[i..] == [];
      assert accounts == accounts[..i];
      return None;
    }


    /** One branch of the `when`, on the fields; `Ledger.ApplyKind` is its specification. */
    method AddTransactionOfKind(t: Transaction, kind: TransactionType) returns (result: Result<Transaction, Fault>)
      modifies this
      ensures Outcome(Ledger(), result) == ApplyKind(old(Ledger()), t, kind)
      ensures State() == old(State()).(accounts := accounts, goals := goals, transactions := transactions)
    {
      match kind {
      case DEPOSIT =>
        var fault := StepInPlace(CreditMatching(t.accountNumber, t.amount));
        if fault.Some? {
          return Failure(fault.value);
        }
      case WITHDRAW =>
        var items, fault := RunPass(accounts, DebitMatching(t.accountNumber, t.amount));
        if fault.Some? {
          return Failure(fault.value);
        }
        accounts := items;
      case TRANSFER_OUT_TO =>
        var items, fault := RunPass(accounts, DebitMatching(t.accountNumber, t.amount));
        if fault.Some? {
          return Failure(fault.value);
        }
        accounts := items;
      case TRANSFER_OUT =>
        var items, fault := RunPass(accounts, TransferMatching(t.accountNumber, t.targetAccountNumber, t.amount));
        if fault.Some? {
          return Failure(fault.value);
        }
        accounts := items;
      case DEPOSIT_GOAL =>
        var items, fault := RunPass(accounts, DebitMatching(t.accountNumber, t.amount));
        if fault.Some? {
          return Failure(fault.value);
        }
        accounts := items;
        var gitems, gfault := RunPass(goals, GoalCreditMatching(t.goalName, t.amount));
        if gfault.Some? {
          return Failure(gfault.value);
        }
        goals := gitems;
      case WITHDRAW_GOAL =>
        var items, fault := RunPass(accounts, CreditMatching(t.accountNumber, t.amount));
        if fault.Some? {
          return Failure(fault.value);
        }
        accounts := items;
        var gitems, gfault := RunPass(goals, GoalDebitMatching(t.goalName, t.amount));
        if gfault.Some? {
          return Failure(gfault.value);
        }
        goals := gitems;
      case TRANSFER_GOAL_OUT =>
        var gitems, gfault := RunPass(goals, GoalTransferMatching(t.goalName, t.targetGoalName, t.amount));
        if gfault.Some? {
          return Failure(gfault.value);
        }
        goals := gitems;
      case TRANSFER_GOAL_OUT_TO =>
        var gitems, gfault := RunPass(goals, GoalDebitMatching(t.goalName, t.amount));
        if gfault.Some? {
          return Failure(gfault.value);
        }
        goals := gitems;
      }
      transactions := transactions + [t];
      return Success(t);
    }

    /** `addTransaction(transaction, onResult)`: the fields end as `Ledger.Apply` says and
        the result is the value passed to `onResult`. */
    method AddTransaction(t: Transaction) returns (result: Result<Transaction, Fault>)
      modifies this
      ensures Outcome(Ledger(), result) == Apply(old(Ledger()), t)
      ensures State() == old(State()).(accounts := accounts, goals := goals, transactions := transactions)
    {
      if t.typeName.None? {
        return Failure(NullField);
      }
      var kind := ValueOf(t.typeName.value);
      if kind.None? {
        return Failure(UnknownType);
      }
      KindRoutes(Ledger(), t);
      result := AddTransactionOfKind(t, kind.value);
    }
  }

  /** When the top screen is on the stack once, going back pops it. */
  lemma {:induction false} BackPopsUniqueTop(stack: seq<Screen>)
    requires |stack| > 1 && stack[|stack| - 1] !in stack[..|stack| - 1]
    ensures RemoveFirst(stack, stack[|stack| - 1]) == stack[..|stack| - 1]
  {
    var top := stack[|stack| - 1];
    var i := FirstIndex(stack, top);
    assert stack[i + 1..] == [];
  }

  /** Going back right after going to a screen that was not on the stack restores the
      stack: `navigateBack` undoes `navigateTo`. */
  lemma {:induction false} BackUndoesNavigateTo(stack: seq<Screen>, s: Screen)
    requires s !in stack
    ensures RemoveFirst(stack + [s], s) == stack
  {
    var xs := stack + [s];
    var i := FirstIndex(xs, s);
    assert xs[..i] == stack && xs[i + 1..] == [];
  }

  /** When the top screen is also lower on the stack, going back removes the lowest copy
      instead: the top screen stays current and the stack loses an element below it. */
  lemma {:induction false} BackKeepsDuplicatedTop(stack: seq<Screen>)
    requires |stack| > 1 && stack[|stack| - 1] in stack[..|stack| - 1]
    ensures FirstIndex(stack, stack[|stack| - 1]) < |stack| - 1
    ensures var r := RemoveFirst(stack, stack[|stack| - 1]);
      |r| == |stack| - 1 && r[|r| - 1] == stack[|stack| - 1]
  {
    var top := stack[|stack| - 1];
    var k :| 0 <= k < |stack| - 1 && stack[..|stack| - 1][k] == top;
    var i := FirstIndex(stack, top);
    assert stack[k] == top;
    var r := RemoveFirst(stack, top);
    assert r[|r| - 1] == stack[i + 1..][|stack| - i - 2];
  }

  /** An instance: Login, Dashboard, Accounts, Dashboard goes back to Login, Accounts,
      Dashboard. */
  lemma BackRemovesLowerCopy()
    ensures RemoveFirst([Login, Dashboard, Accounts, Dashboard], Dashboard) == [Login, Accounts, Dashboard]
  {
    var s := [Login, Dashboard, Accounts, Dashboard];
    assert s[1] == Dashboard && Dashboard !in s[..1];
    assert FirstIndex(s, Dashboard) == 1;
  }
}
