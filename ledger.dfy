/** The rule table of `MainViewModel.addTransaction`
    (src/main/kotlin/viewModels/MainViewModel.kt:89-227) as pure functions over the three
    collections it reads and writes. `MainViewModels.MainViewModel.AddTransaction` performs the
    same steps on its fields and is proved equal to `Apply`. */
module Ledger {
  import opened Wrappers
  import opened Models
  import opened Transactions

  /** Why `addTransaction` reports failure. */
  datatype Fault =
    | InsufficientBalance  // "Invalid balance to complete transaction"
    | NullField            // a `!!` on a null field throws
    | UnknownType          // `valueOf` of a string that names no constant: IllegalArgumentException

  // ----- one `map { … }` pass with an early `return@launch` -----

  /** What the lambda of a pass does with one element: leave it, replace it, or abort
      the whole coroutine (`return@launch` or an exception). */
  datatype Step<T> = Keep | Put(item: T) | Abort(fault: Fault)

  function Stepped<T>(s: Step<T>, x: T): T {
    if s.Put? then s.item else x
  }

  /** The outcome of a pass: the elements as they stand, and the fault that stopped it.
      When a pass is stopped, the elements before the aborting one have been stepped and
      the rest are untouched; a pass that builds a new list discards them, a pass that
      mutates the elements in place cannot. */
  datatype Pass<T> = Pass(items: seq<T>, fault: Option<Fault>)

  /** The pass was stopped by element `j`: every element before it stepped without
      aborting, and `j` and everything after it is as it was. */
  ghost predicate StoppedAtIndex<T>(xs: seq<T>, f: T -> Step<T>, r: Pass<T>, j: int)
    requires |r.items| == |xs| && r.fault.Some?
  {
    && 0 <= j < |xs|
    && f(xs[j]) == Abort(r.fault.value)
    && (forall i :: 0 <= i < j ==> !f(xs[i]).Abort? && r.items[i] == Stepped(f(xs[i]), xs[i]))
    && (forall i :: j <= i < |xs| ==> r.items[i] == xs[i])
  }

  ghost predicate StoppedAt<T>(xs: seq<T>, f: T -> Step<T>, r: Pass<T>)
    requires |r.items| == |xs| && r.fault.Some?
  {
    exists j :: StoppedAtIndex(xs, f, r, j)
  }

  /** What a pass promises: the elements are all stepped when nothing aborts, and
      otherwise the pass stopped at its first abort. */
  ghost predicate PassMeets<T>(xs: seq<T>, f: T -> Step<T>, r: Pass<T>) {
    && |r.items| == |xs|
    && (r.fault.None? <==> forall i :: 0 <= i < |xs| ==> !f(xs[i]).Abort?)
    && (r.fault.None? ==> forall i :: 0 <= i < |xs| ==> r.items[i] == Stepped(f(xs[i]), xs[i]))
    && (r.fault.Some? ==> StoppedAt(xs, f, r))
  }

  function MapUntil<T>(xs: seq<T>, f: T -> Step<T>): (r: Pass<T>)
    ensures |r.items| == |xs|
    ensures r.fault.None? <==> forall i :: 0 <= i < |xs| ==> !f(xs[i]).Abort?
    ensures r.fault.None? ==> forall i :: 0 <= i < |xs| ==> r.items[i] == Stepped(f(xs[i]), xs[i])
    ensures r.fault.Some? ==> StoppedAt(xs, f, r)
  {
    if xs == [] then Pass([], None)
    else
      match f(xs[0])
      case Abort(e) =>
        var r := Pass(xs, Some(e));
        assert StoppedAtIndex(xs, f, r, 0);
        r
      case _ =>
        var rest := MapUntil(xs[1..], f);
        var r := Pass([Stepped(f(xs[0]), xs[0])] + rest.items, rest.fault);
        PassMeetsCons(xs, f, rest);
        r
  }

  /** Stepping a non-aborting head in front of a pass over the tail is a pass. */
  lemma {:induction false} PassMeetsCons<T>(xs: seq<T>, f: T -> Step<T>, rest: Pass<T>)
    requires xs != [] && !f(xs[0]).Abort? && PassMeets(xs[1..], f, rest)
    ensures PassMeets(xs, f, Pass([Stepped(f(xs[0]), xs[0])] + rest.items, rest.fault))
  {
    var r := Pass([Stepped(f(xs[0]), xs[0])] + rest.items, rest.fault);
    assert forall i :: 1 <= i < |xs| ==> xs[i] == xs[1..][i - 1] && r.items[i] == rest.items[i - 1];
    if r.fault.Some? {
      var j :| StoppedAtIndex(xs[1..], f, rest, j);
      assert StoppedAtIndex(xs, f, r, j + 1);
    }
  }

  /** One step of a pass over the suffix starting at `i`: an abort there ends the pass
      with that suffix untouched; otherwise the stepped element heads the rest of the pass. */
  lemma MapUntilAt<T>(xs: seq<T>, f: T -> Step<T>, i: nat)
    requires i < |xs|
    ensures f(xs[i]).Abort? ==> MapUntil(xs[i..], f) == Pass(xs[i..], Some(f(xs[i]).fault))
    ensures !f(xs[i]).Abort? ==> (MapUntil(xs[i..], f) ==
      Pass([Stepped(f(xs[i]), xs[i])] + MapUntil(xs[i + 1..], f).items, MapUntil(xs[i + 1..], f).fault))
  {
    assert xs[i..][0] == xs[i] && xs[i..][1..] == xs[i + 1..];
  }

  // ----- the per-element rules -----

  function Credited(a: BankAccount, x: real): BankAccount
    requires a.balance.Some?
  {
    a.(balance := Some(a.balance.value + x))
  }

  function Debited(a: BankAccount, x: real): BankAccount
    requires a.balance.Some?
  {
    a.(balance := Some(a.balance.value - x))
  }

  function GoalCredited(g: SavingsGoal, x: real): SavingsGoal
    requires g.savedAmount.Some?
  {
    g.(savedAmount := Some(g.savedAmount.value + x))
  }

  function GoalDebited(g: SavingsGoal, x: real): SavingsGoal
    requires g.savedAmount.Some?
  {
    g.(savedAmount := Some(g.savedAmount.value - x))
  }

  /** `balance = it.balance!! + transaction.amount!!` */
  function CreditStep(a: BankAccount, amount: Option<real>): Step<BankAccount> {
    if a.balance.None? || amount.None? then Abort(NullField)
    else Put(Credited(a, amount.value))
  }

  /** `if (it.balance!! < transaction.amount!!) { fail; return@launch }`, then
      `balance = it.balance!! - transaction.amount!!` */
  function DebitStep(a: BankAccount, amount: Option<real>): Step<BankAccount> {
    if a.balance.None? || amount.None? then Abort(NullField)
    else if a.balance.value < amount.value then Abort(InsufficientBalance)
    else Put(Debited(a, amount.value))
  }

  function GoalCreditStep(g: SavingsGoal, amount: Option<real>): Step<SavingsGoal> {
    if g.savedAmount.None? || amount.None? then Abort(NullField)
    else Put(GoalCredited(g, amount.value))
  }

  function GoalDebitStep(g: SavingsGoal, amount: Option<real>): Step<SavingsGoal> {
    if g.savedAmount.None? || amount.None? then Abort(NullField)
    else if g.savedAmount.value < amount.value then Abort(InsufficientBalance)
    else Put(GoalDebited(g, amount.value))
  }

  /** `if (it.accountNumber == key) credit else it` */
  function CreditMatching(key: Option<string>, amount: Option<real>): BankAccount -> Step<BankAccount> {
    (a: BankAccount) => if a.accountNumber == key then CreditStep(a, amount) else Keep
  }

  function DebitMatching(key: Option<string>, amount: Option<real>): BankAccount -> Step<BankAccount> {
    (a: BankAccount) => if a.accountNumber == key then DebitStep(a, amount) else Keep
  }

  /** `when (it.accountNumber) { source -> debit; target -> credit; else -> it }`: the
      first branch that matches wins. */
  function TransferMatching(source: Option<string>, target: Option<string>, amount: Option<real>)
    : BankAccount -> Step<BankAccount>
  {
    (a: BankAccount) => if a.accountNumber == source then DebitStep(a, amount)
         else if a.accountNumber == target then CreditStep(a, amount)
         else Keep
  }

  function GoalCreditMatching(name: Option<string>, amount: Option<real>): SavingsGoal -> Step<SavingsGoal> {
    (g: SavingsGoal) => if g.goalName == name then GoalCreditStep(g, amount) else Keep
  }

  function GoalDebitMatching(name: Option<string>, amount: Option<real>): SavingsGoal -> Step<SavingsGoal> {
    (g: SavingsGoal) => if g.goalName == name then GoalDebitStep(g, amount) else Keep
  }

  function GoalTransferMatching(source: Option<string>, target: Option<string>, amount: Option<real>)
    : SavingsGoal -> Step<SavingsGoal>
  {
    (g: SavingsGoal) => if g.goalName == source then GoalDebitStep(g, amount)
         else if g.goalName == target then GoalCreditStep(g, amount)
         else Keep
  }

  // ----- the whole operation -----

  /** The three collections `addTransaction` touches. */
  datatype Books = Books(accounts: seq<BankAccount>, goals: seq<SavingsGoal>, history: seq<Transaction>)

  /** The collections afterwards, and the value passed to `onResult`. */
  datatype Outcome = Outcome(books: Books, result: Result<Transaction, Fault>)

  /** `TransactionType.valueOf(transaction.type!!)`: `None` when the type is null or names
      no constant. */
  function KindOf(t: Transaction): Option<TransactionType> {
    if t.typeName.None? then None else ValueOf(t.typeName.value)
  }

  /** Lines 221-222: append to history, report success. */
  function Commit(b: Books, t: Transaction): Outcome {
    Outcome(b.(history := b.history + [t]), Success(t))
  }

  /** `addTransaction(transaction)`, run to completion. */
  function Apply(b: Books, t: Transaction): (r: Outcome)
    ensures r.result.Success? ==> r.result.value == t && r.books.history == b.history + [t]
    ensures r.result.Failure? ==> r.books.history == b.history
    ensures |r.books.accounts| == |b.accounts| && |r.books.goals| == |b.goals|
    ensures KindOf(t).None? ==> r.books == b && r.result.Failure?
    ensures t.typeName.None? ==> r.result == Failure(NullField)
  {
    match t.typeName
    case None => Outcome(b, Failure(NullField))
    case Some(name) =>
      match ValueOf(name)
      case None => Outcome(b, Failure(UnknownType))
      case Some(kind) => ApplyKind(b, t, kind)
  }

  function ApplyKind(b: Books, t: Transaction, kind: TransactionType): (r: Outcome)
    ensures r.result.Success? ==> r.result.value == t && r.books.history == b.history + [t]
    ensures r.result.Failure? ==> r.books.history == b.history
    ensures |r.books.accounts| == |b.accounts| && |r.books.goals| == |b.goals|
  {
    match kind
    case DEPOSIT =>
      // the balance is updated in place, so a pass stopped by a null keeps its prefix
      var p := MapUntil(b.accounts, CreditMatching(t.accountNumber, t.amount));
      var b1 := b.(accounts := p.items);
      if p.fault.Some? then Outcome(b1, Failure(p.fault.value)) else Commit(b1, t)
    case WITHDRAW => DebitAccounts(b, t)
    case TRANSFER_OUT_TO => DebitAccounts(b, t)
    case TRANSFER_OUT =>
      var p := MapUntil(b.accounts, TransferMatching(t.accountNumber, t.targetAccountNumber, t.amount));
      if p.fault.Some? then Outcome(b, Failure(p.fault.value)) else Commit(b.(accounts := p.items), t)
    case DEPOSIT_GOAL =>
      var p := MapUntil(b.accounts, DebitMatching(t.accountNumber, t.amount));
      if p.fault.Some? then Outcome(b, Failure(p.fault.value))
      else
        var b1 := b.(accounts := p.items);
        var q := MapUntil(b.goals, GoalCreditMatching(t.goalName, t.amount));
        if q.fault.Some? then Outcome(b1, Failure(q.fault.value)) else Commit(b1.(goals := q.items), t)
    case WITHDRAW_GOAL =>
      var p := MapUntil(b.accounts, CreditMatching(t.accountNumber, t.amount));
      if p.fault.Some? then Outcome(b, Failure(p.fault.value))
      else
        // line 163 has already assigned the credited accounts when the goal check runs
        var b1 := b.(accounts := p.items);
        var q := MapUntil(b.goals, GoalDebitMatching(t.goalName, t.amount));
        if q.fault.Some? then Outcome(b1, Failure(q.fault.value)) else Commit(b1.(goals := q.items), t)
    case TRANSFER_GOAL_OUT =>
      var q := MapUntil(b.goals, GoalTransferMatching(t.goalName, t.targetGoalName, t.amount));
      if q.fault.Some? then Outcome(b, Failure(q.fault.value)) else Commit(b.(goals := q.items), t)
    case TRANSFER_GOAL_OUT_TO =>
      var q := MapUntil(b.goals, GoalDebitMatching(t.goalName, t.amount));
      if q.fault.Some? then Outcome(b, Failure(q.fault.value)) else Commit(b.(goals := q.items), t)
  }

  /** WITHDRAW and TRANSFER_OUT_TO share one branch: a debit with no credit leg. */
  function DebitAccounts(b: Books, t: Transaction): Outcome {
    var p := MapUntil(b.accounts, DebitMatching(t.accountNumber, t.amount));
    if p.fault.Some? then Outcome(b, Failure(p.fault.value)) else Commit(b.(accounts := p.items), t)
  }

  // ----- the rules, one transaction type at a time -----

  /** Every account carrying `key` has a balance, so no `!!` on it fails. */
  ghost predicate BalancesKnown(accounts: seq<BankAccount>, key: Option<string>) {
    forall i :: 0 <= i < |accounts| && accounts[i].accountNumber == key ==> accounts[i].balance.Some?
  }

  ghost predicate SavingsKnown(goals: seq<SavingsGoal>, name: Option<string>) {
    forall i :: 0 <= i < |goals| && goals[i].goalName == name ==> goals[i].savedAmount.Some?
  }

  /** Some account carrying `key` holds less than `x`. */
  ghost predicate Overdrawn(accounts: seq<BankAccount>, key: Option<string>, x: real) {
    exists i :: 0 <= i < |accounts| && accounts[i].accountNumber == key &&
      accounts[i].balance.Some? && accounts[i].balance.value < x
  }

  ghost predicate GoalOverdrawn(goals: seq<SavingsGoal>, name: Option<string>, x: real) {
    exists i :: 0 <= i < |goals| && goals[i].goalName == name &&
      goals[i].savedAmount.Some? && goals[i].savedAmount.value < x
  }

  /** A pass whose lambda keeps every element leaves the list as it is. */
  lemma {:induction false} AllKeptIsIdentity<T>(xs: seq<T>, f: T -> Step<T>)
    requires forall i :: 0 <= i < |xs| ==> f(xs[i]) == Keep
    ensures MapUntil(xs, f) == Pass(xs, None)
  {
    var r := MapUntil(xs, f);
    assert r.fault.None?;
    assert forall i :: 0 <= i < |xs| ==> r.items[i] == xs[i];
  }

  /** Once the type has decoded, `Apply` is the rule for that type. */
  lemma KindRoutes(b: Books, t: Transaction)
    requires KindOf(t).Some?
    ensures Apply(b, t) == ApplyKind(b, t, KindOf(t).value)
  {
  }

  // one pass of each kind, with the amount known

  /** A pass whose every abort carries the fault `e` stops with `e` when it stops. */
  lemma {:induction false} PassFault<T>(xs: seq<T>, f: T -> Step<T>, e: Fault)
    requires forall i :: 0 <= i < |xs| && f(xs[i]).Abort? ==> f(xs[i]).fault == e
    ensures MapUntil(xs, f).fault.Some? ==> MapUntil(xs, f).fault.value == e
  {
    var p := MapUntil(xs, f);
    if p.fault.Some? {
      var j :| StoppedAtIndex(xs, f, p, j);
    }
  }

  lemma {:induction false} CreditPass(accounts: seq<BankAccount>, key: Option<string>, x: real)
    requires BalancesKnown(accounts, key)
    ensures MapUntil(accounts, CreditMatching(key, Some(x))).fault.None?
    ensures forall i :: 0 <= i < |accounts| ==> (MapUntil(accounts, CreditMatching(key, Some(x))).items[i] ==
      if accounts[i].accountNumber == key then Credited(accounts[i], x) else accounts[i])
  {
    var f := CreditMatching(key, Some(x));
    assert forall i :: 0 <= i < |accounts| ==> !f(accounts[i]).Abort?;
  }

  lemma {:induction false} DebitPass(accounts: seq<BankAccount>, key: Option<string>, x: real)
    requires BalancesKnown(accounts, key)
    ensures MapUntil(accounts, DebitMatching(key, Some(x))).fault.Some? <==> Overdrawn(accounts, key, x)
    ensures MapUntil(accounts, DebitMatching(key, Some(x))).fault.Some? ==>
      MapUntil(accounts, DebitMatching(key, Some(x))).fault.value == InsufficientBalance
    ensures MapUntil(accounts, DebitMatching(key, Some(x))).fault.None? ==>
      forall i :: 0 <= i < |accounts| ==> (MapUntil(accounts, DebitMatching(key, Some(x))).items[i] ==
        if accounts[i].accountNumber == key then Debited(accounts[i], x) else accounts[i])
  {
    var f := DebitMatching(key, Some(x));
    assert forall i :: 0 <= i < |accounts| ==>
      (f(accounts[i]).Abort? <==> accounts[i].accountNumber == key && accounts[i].balance.value < x);
    PassFault(accounts, f, InsufficientBalance);
  }

  lemma {:induction false} TransferPass(accounts: seq<BankAccount>, source: Option<string>, target: Option<string>, x: real)
    requires BalancesKnown(accounts, source) && BalancesKnown(accounts, target)
    ensures MapUntil(accounts, TransferMatching(source, target, Some(x))).fault.Some? <==> Overdrawn(accounts, source, x)
    ensures MapUntil(accounts, TransferMatching(source, target, Some(x))).fault.Some? ==>
      MapUntil(accounts, TransferMatching(source, target, Some(x))).fault.value == InsufficientBalance
    ensures MapUntil(accounts, TransferMatching(source, target, Some(x))).fault.None? ==>
      forall i :: 0 <= i < |accounts| ==> (MapUntil(accounts, TransferMatching(source, target, Some(x))).items[i] ==
        if accounts[i].accountNumber == source then Debited(accounts[i], x)
        else if accounts[i].accountNumber == target then Credited(accounts[i], x)
        else accounts[i])
  {
    var f := TransferMatching(source, target, Some(x));
    assert forall i :: 0 <= i < |accounts| ==>
      (f(accounts[i]).Abort? <==> accounts[i].accountNumber == source && accounts[i].balance.value < x);
    PassFault(accounts, f, InsufficientBalance);
  }

  lemma {:induction false} GoalCreditPass(goals: seq<SavingsGoal>, name: Option<string>, x: real)
    requires SavingsKnown(goals, name)
    ensures MapUntil(goals, GoalCreditMatching(name, Some(x))).fault.None?
    ensures forall i :: 0 <= i < |goals| ==> (MapUntil(goals, GoalCreditMatching(name, Some(x))).items[i] ==
      if goals[i].goalName == name then GoalCredited(goals[i], x) else goals[i])
  {
    var g := GoalCreditMatching(name, Some(x));
    assert forall i :: 0 <= i < |goals| ==> !g(goals[i]).Abort?;
  }

  lemma {:induction false} GoalDebitPass(goals: seq<SavingsGoal>, name: Option<string>, x: real)
    requires SavingsKnown(goals, name)
    ensures MapUntil(goals, GoalDebitMatching(name, Some(x))).fault.Some? <==> GoalOverdrawn(goals, name, x)
    ensures MapUntil(goals, GoalDebitMatching(name, Some(x))).fault.Some? ==>
      MapUntil(goals, GoalDebitMatching(name, Some(x))).fault.value == InsufficientBalance
    ensures MapUntil(goals, GoalDebitMatching(name, Some(x))).fault.None? ==>
      forall i :: 0 <= i < |goals| ==> (MapUntil(goals, GoalDebitMatching(name, Some(x))).items[i] ==
        if goals[i].goalName == name then GoalDebited(goals[i], x) else goals[i])
  {
    var g := GoalDebitMatching(name, Some(x));
    assert forall i :: 0 <= i < |goals| ==>
      (g(goals[i]).Abort? <==> goals[i].goalName == name && goals[i].savedAmount.value < x);
    PassFault(goals, g, InsufficientBalance);
  }

  lemma {:induction false} GoalTransferPass(goals: seq<SavingsGoal>, source: Option<string>, target: Option<string>, x: real)
    requires SavingsKnown(goals, source) && SavingsKnown(goals, target)
    ensures MapUntil(goals, GoalTransferMatching(source, target, Some(x))).fault.Some? <==> GoalOverdrawn(goals, source, x)
    ensures MapUntil(goals, GoalTransferMatching(source, target, Some(x))).fault.Some? ==>
      MapUntil(goals, GoalTransferMatching(source, target, Some(x))).fault.value == InsufficientBalance
    ensures MapUntil(goals, GoalTransferMatching(source, target, Some(x))).fault.None? ==>
      forall i :: 0 <= i < |goals| ==> (MapUntil(goals, GoalTransferMatching(source, target, Some(x))).items[i] ==
        if goals[i].goalName == source then GoalDebited(goals[i], x)
        else if goals[i].goalName == target then GoalCredited(goals[i], x)
        else goals[i])
  {
    var g := GoalTransferMatching(source, target, Some(x));
    assert forall i :: 0 <= i < |goals| ==>
      (g(goals[i]).Abort? <==> goals[i].goalName == source && goals[i].savedAmount.value < x);
    PassFault(goals, g, InsufficientBalance);
  }

  // the branches of the `when`

  /** DEPOSIT credits every account carrying the transaction's number and nothing else. */
  lemma {:induction false} DepositRule(b: Books, t: Transaction)
    requires t.amount.Some?
    requires BalancesKnown(b.accounts, t.accountNumber)
    ensures ApplyKind(b, t, DEPOSIT).result == Success(t)
    ensures ApplyKind(b, t, DEPOSIT).books.goals == b.goals
    ensures forall i :: 0 <= i < |b.accounts| ==> (ApplyKind(b, t, DEPOSIT).books.accounts[i] ==
      if b.accounts[i].accountNumber == t.accountNumber then Credited(b.accounts[i], t.amount.value)
      else b.accounts[i])
  {
    CreditPass(b.accounts, t.accountNumber, t.amount.value);
  }

  /** WITHDRAW and TRANSFER_OUT_TO fail exactly when some matching account holds less than
      the amount, and then change nothing; otherwise they debit every matching account. */
  lemma {:induction false} DebitRule(b: Books, t: Transaction, kind: TransactionType)
    requires kind == WITHDRAW || kind == TRANSFER_OUT_TO
    requires t.amount.Some? && BalancesKnown(b.accounts, t.accountNumber)
    ensures ApplyKind(b, t, kind).result.Failure? <==> Overdrawn(b.accounts, t.accountNumber, t.amount.value)
    ensures ApplyKind(b, t, kind).result.Failure? ==>
      ApplyKind(b, t, kind).result.error == InsufficientBalance && ApplyKind(b, t, kind).books == b
    ensures ApplyKind(b, t, kind).result.Success? ==> ApplyKind(b, t, kind).books.goals == b.goals
    ensures ApplyKind(b, t, kind).result.Success? ==>
      forall i :: 0 <= i < |b.accounts| ==> (ApplyKind(b, t, kind).books.accounts[i] ==
        if b.accounts[i].accountNumber == t.accountNumber then Debited(b.accounts[i], t.amount.value)
        else b.accounts[i])
  {
    assert ApplyKind(b, t, kind) == DebitAccounts(b, t);
    DebitPass(b.accounts, t.accountNumber, t.amount.value);
  }

  /** TRANSFER_OUT debits the source accounts and credits the target accounts in one pass;
      an account carrying both numbers is only debited, because the source branch wins. It
      fails exactly when some source account holds less than the amount, and then changes
      nothing. */
  lemma {:induction false} TransferOutRule(b: Books, t: Transaction)
    requires t.amount.Some?
    requires BalancesKnown(b.accounts, t.accountNumber)
    requires BalancesKnown(b.accounts, t.targetAccountNumber)
    ensures ApplyKind(b, t, TRANSFER_OUT).result.Failure? <==> Overdrawn(b.accounts, t.accountNumber, t.amount.value)
    ensures ApplyKind(b, t, TRANSFER_OUT).result.Failure? ==>
      ApplyKind(b, t, TRANSFER_OUT).result.error == InsufficientBalance && ApplyKind(b, t, TRANSFER_OUT).books == b
    ensures ApplyKind(b, t, TRANSFER_OUT).result.Success? ==> ApplyKind(b, t, TRANSFER_OUT).books.goals == b.goals
    ensures ApplyKind(b, t, TRANSFER_OUT).result.Success? ==>
      forall i :: 0 <= i < |b.accounts| ==> (ApplyKind(b, t, TRANSFER_OUT).books.accounts[i] ==
        if b.accounts[i].accountNumber == t.accountNumber then Debited(b.accounts[i], t.amount.value)
        else if b.accounts[i].accountNumber == t.targetAccountNumber then Credited(b.accounts[i], t.amount.value)
        else b.accounts[i])
  {
    TransferPass(b.accounts, t.accountNumber, t.targetAccountNumber, t.amount.value);
  }

  /** A transfer from an account to itself only debits it: the money leaves and never
      arrives. */
  lemma {:induction false} SelfTransferOnlyDebits(b: Books, t: Transaction)
    requires t.amount.Some?
    requires t.targetAccountNumber == t.accountNumber
    requires BalancesKnown(b.accounts, t.accountNumber)
    ensures ApplyKind(b, t, TRANSFER_OUT).result.Success? ==>
      forall i :: 0 <= i < |b.accounts| ==> (ApplyKind(b, t, TRANSFER_OUT).books.accounts[i] ==
        if b.accounts[i].accountNumber == t.accountNumber then Debited(b.accounts[i], t.amount.value)
        else b.accounts[i])
  {
    TransferOutRule(b, t);
  }

  /** DEPOSIT_GOAL debits the matching accounts, then credits the matching goals. It fails
      exactly when some matching account holds less than the amount, and then changes
      nothing. */
  lemma {:induction false} DepositGoalRule(b: Books, t: Transaction)
    requires t.amount.Some?
    requires BalancesKnown(b.accounts, t.accountNumber)
    requires SavingsKnown(b.goals, t.goalName)
    ensures ApplyKind(b, t, DEPOSIT_GOAL).result.Failure? <==> Overdrawn(b.accounts, t.accountNumber, t.amount.value)
    ensures ApplyKind(b, t, DEPOSIT_GOAL).result.Failure? ==>
      ApplyKind(b, t, DEPOSIT_GOAL).result.error == InsufficientBalance && ApplyKind(b, t, DEPOSIT_GOAL).books == b
    ensures ApplyKind(b, t, DEPOSIT_GOAL).result.Success? ==>
      forall i :: 0 <= i < |b.accounts| ==> (ApplyKind(b, t, DEPOSIT_GOAL).books.accounts[i] ==
        if b.accounts[i].accountNumber == t.accountNumber then Debited(b.accounts[i], t.amount.value)
        else b.accounts[i])
    ensures ApplyKind(b, t, DEPOSIT_GOAL).result.Success? ==>
      forall i :: 0 <= i < |b.goals| ==> (ApplyKind(b, t, DEPOSIT_GOAL).books.goals[i] ==
        if b.goals[i].goalName == t.goalName then GoalCredited(b.goals[i], t.amount.value)
        else b.goals[i])
  {
    DebitPass(b.accounts, t.accountNumber, t.amount.value);
    GoalCreditPass(b.goals, t.goalName, t.amount.value);
  }

  /** WITHDRAW_GOAL credits the matching accounts before it checks the goals, so the
      credit survives a failed goal check: the operation is not atomic. It fails exactly
      when some matching goal holds less than the amount; then the goals and the history
      are unchanged but the accounts are credited all the same. */
  lemma {:induction false} WithdrawGoalRule(b: Books, t: Transaction)
    requires t.amount.Some?
    requires BalancesKnown(b.accounts, t.accountNumber)
    requires SavingsKnown(b.goals, t.goalName)
    ensures forall i :: 0 <= i < |b.accounts| ==> (ApplyKind(b, t, WITHDRAW_GOAL).books.accounts[i] ==
      if b.accounts[i].accountNumber == t.accountNumber then Credited(b.accounts[i], t.amount.value)
      else b.accounts[i])
    ensures ApplyKind(b, t, WITHDRAW_GOAL).result.Failure? <==> GoalOverdrawn(b.goals, t.goalName, t.amount.value)
    ensures ApplyKind(b, t, WITHDRAW_GOAL).result.Failure? ==>
      ApplyKind(b, t, WITHDRAW_GOAL).result.error == InsufficientBalance && ApplyKind(b, t, WITHDRAW_GOAL).books.goals == b.goals
    ensures ApplyKind(b, t, WITHDRAW_GOAL).result.Success? ==>
      forall i :: 0 <= i < |b.goals| ==> (ApplyKind(b, t, WITHDRAW_GOAL).books.goals[i] ==
        if b.goals[i].goalName == t.goalName then GoalDebited(b.goals[i], t.amount.value)
        else b.goals[i])
  {
    CreditPass(b.accounts, t.accountNumber, t.amount.value);
    GoalDebitPass(b.goals, t.goalName, t.amount.value);
  }

  /** TRANSFER_GOAL_OUT moves the amount between goals in one pass (the source branch
      first); it fails exactly when some source goal holds less, and then changes nothing. */
  lemma {:induction false} TransferGoalOutRule(b: Books, t: Transaction)
    requires t.amount.Some?
    requires SavingsKnown(b.goals, t.goalName)
    requires SavingsKnown(b.goals, t.targetGoalName)
    ensures ApplyKind(b, t, TRANSFER_GOAL_OUT).result.Failure? <==> GoalOverdrawn(b.goals, t.goalName, t.amount.value)
    ensures ApplyKind(b, t, TRANSFER_GOAL_OUT).result.Failure? ==>
      ApplyKind(b, t, TRANSFER_GOAL_OUT).result.error == InsufficientBalance && ApplyKind(b, t, TRANSFER_GOAL_OUT).books == b
    ensures ApplyKind(b, t, TRANSFER_GOAL_OUT).result.Success? ==> ApplyKind(b, t, TRANSFER_GOAL_OUT).books.accounts == b.accounts
    ensures ApplyKind(b, t, TRANSFER_GOAL_OUT).result.Success? ==>
      forall i :: 0 <= i < |b.goals| ==> (ApplyKind(b, t, TRANSFER_GOAL_OUT).books.goals[i] ==
        if b.goals[i].goalName == t.goalName then GoalDebited(b.goals[i], t.amount.value)
        else if b.goals[i].goalName == t.targetGoalName then GoalCredited(b.goals[i], t.amount.value)
        else b.goals[i])
  {
    GoalTransferPass(b.goals, t.goalName, t.targetGoalName, t.amount.value);
  }

  /** TRANSFER_GOAL_OUT_TO debits the matching goals and credits nothing here. */
  lemma {:induction false} TransferGoalOutToRule(b: Books, t: Transaction)
    requires t.amount.Some?
    requires SavingsKnown(b.goals, t.goalName)
    ensures ApplyKind(b, t, TRANSFER_GOAL_OUT_TO).result.Failure? <==> GoalOverdrawn(b.goals, t.goalName, t.amount.value)
    ensures ApplyKind(b, t, TRANSFER_GOAL_OUT_TO).result.Failure? ==>
      ApplyKind(b, t, TRANSFER_GOAL_OUT_TO).result.error == InsufficientBalance && ApplyKind(b, t, TRANSFER_GOAL_OUT_TO).books == b
    ensures ApplyKind(b, t, TRANSFER_GOAL_OUT_TO).result.Success? ==> ApplyKind(b, t, TRANSFER_GOAL_OUT_TO).books.accounts == b.accounts
    ensures ApplyKind(b, t, TRANSFER_GOAL_OUT_TO).result.Success? ==>
      forall i :: 0 <= i < |b.goals| ==> (ApplyKind(b, t, TRANSFER_GOAL_OUT_TO).books.goals[i] ==
        if b.goals[i].goalName == t.goalName then GoalDebited(b.goals[i], t.amount.value)
        else b.goals[i])
  {
    GoalDebitPass(b.goals, t.goalName, t.amount.value);
  }

  /** DEPOSIT mutates the balances in place, so when it meets a matching account with a
      null balance it fails with the accounts before that one already credited. */
  lemma {:induction false} DepositKeepsPartialCredit(b: Books, t: Transaction, j: nat)
    requires t.amount.Some?
    requires j < |b.accounts| && b.accounts[j].accountNumber == t.accountNumber
    requires b.accounts[j].balance.None?
    requires BalancesKnown(b.accounts[..j], t.accountNumber)
    ensures ApplyKind(b, t, DEPOSIT).result == Failure(NullField)
    ensures ApplyKind(b, t, DEPOSIT).books.goals == b.goals
    ensures forall i :: 0 <= i < j ==> (ApplyKind(b, t, DEPOSIT).books.accounts[i] ==
      if b.accounts[i].accountNumber == t.accountNumber then Credited(b.accounts[i], t.amount.value)
      else b.accounts[i])
    ensures forall i :: j <= i < |b.accounts| ==> ApplyKind(b, t, DEPOSIT).books.accounts[i] == b.accounts[i]
  {
    var f := CreditMatching(t.accountNumber, t.amount);
    assert forall i :: 0 <= i < j ==> b.accounts[..j][i] == b.accounts[i];
    assert forall i :: 0 <= i < j ==> !f(b.accounts[i]).Abort?;
    StopsAtFirstAbort(b.accounts, f, j);
  }

  /** A pass whose first abort is at `j` stops there with that element's fault. */
  lemma {:induction false} StopsAtFirstAbort<T>(xs: seq<T>, f: T -> Step<T>, j: nat)
    requires j < |xs| && f(xs[j]).Abort?
    requires forall i :: 0 <= i < j ==> !f(xs[i]).Abort?
    ensures MapUntil(xs, f).fault == Some(f(xs[j]).fault)
    ensures forall i :: 0 <= i < j ==> MapUntil(xs, f).items[i] == Stepped(f(xs[i]), xs[i])
    ensures forall i :: j <= i < |xs| ==> MapUntil(xs, f).items[i] == xs[i]
  {
    var p := MapUntil(xs, f);
    var k :| StoppedAtIndex(xs, f, p, k);
    assert k == j;
  }

  lemma {:induction false} CreditNeverOverdraws(accounts: seq<BankAccount>, key: Option<string>, amount: Option<real>)
    ensures MapUntil(accounts, CreditMatching(key, amount)).fault != Some(InsufficientBalance)
  {
    var f := CreditMatching(key, amount);
    var p := MapUntil(accounts, f);
    if p.fault.Some? {
      var j :| StoppedAtIndex(accounts, f, p, j);
    }
  }

  lemma {:induction false} GoalCreditNeverOverdraws(goals: seq<SavingsGoal>, name: Option<string>, amount: Option<real>)
    ensures MapUntil(goals, GoalCreditMatching(name, amount)).fault != Some(InsufficientBalance)
  {
    var g := GoalCreditMatching(name, amount);
    var q := MapUntil(goals, g);
    if q.fault.Some? {
      var j :| StoppedAtIndex(goals, g, q, j);
    }
  }

  /** A balance check that fails leaves everything as it was, for every type but
      WITHDRAW_GOAL, whose account credit is already assigned when its goal check runs. */
  lemma {:induction false} InsufficientKeepsBooks(b: Books, t: Transaction, kind: TransactionType)
    requires kind != WITHDRAW_GOAL
    requires ApplyKind(b, t, kind).result == Failure(InsufficientBalance)
    ensures ApplyKind(b, t, kind).books == b
  {
    if kind == DEPOSIT {
      CreditNeverOverdraws(b.accounts, t.accountNumber, t.amount);
    } else if kind == DEPOSIT_GOAL {
      GoalCreditNeverOverdraws(b.goals, t.goalName, t.amount);
    }
  }

  /** A transaction whose numbers and names match no account and no goal changes no
      balance and is still recorded as a success, whatever its amount (even a null one). */
  lemma {:induction false} UnmatchedIsRecordedAsSuccess(b: Books, t: Transaction, kind: TransactionType)
    requires forall i :: 0 <= i < |b.accounts| ==>
      b.accounts[i].accountNumber != t.accountNumber && b.accounts[i].accountNumber != t.targetAccountNumber
    requires forall i :: 0 <= i < |b.goals| ==>
      b.goals[i].goalName != t.goalName && b.goals[i].goalName != t.targetGoalName
    ensures ApplyKind(b, t, kind) == Commit(b, t)
  {
    AllKeptIsIdentity(b.accounts, CreditMatching(t.accountNumber, t.amount));
    AllKeptIsIdentity(b.accounts, DebitMatching(t.accountNumber, t.amount));
    AllKeptIsIdentity(b.accounts, TransferMatching(t.accountNumber, t.targetAccountNumber, t.amount));
    AllKeptIsIdentity(b.goals, GoalCreditMatching(t.goalName, t.amount));
    AllKeptIsIdentity(b.goals, GoalDebitMatching(t.goalName, t.amount));
    AllKeptIsIdentity(b.goals, GoalTransferMatching(t.goalName, t.targetGoalName, t.amount));
  }

  // ----- totals -----

  /** The sum of the known balances. */
  function Total(accounts: seq<BankAccount>): real {
    if accounts == [] then 0.0 else accounts[0].balance.GetOr(0.0) + Total(accounts[1..])
  }

  /** How many accounts carry `key`. */
  function Count(accounts: seq<BankAccount>, key: Option<string>): nat {
    if accounts == [] then 0
    else (if accounts[0].accountNumber == key then 1 else 0) + Count(accounts[1..], key)
  }

  /** The balance change of one account under a transfer between `source` and `target`. */
  function Delta(a: BankAccount, source: Option<string>, target: Option<string>, x: real): real {
    if a.accountNumber == source then -x else if a.accountNumber == target then x else 0.0
  }

  /** The net change a transfer makes to a list of accounts. */
  function Flow(xs: seq<BankAccount>, source: Option<string>, target: Option<string>, x: real): real {
    if xs == [] then 0.0 else Delta(xs[0], source, target, x) + Flow(xs[1..], source, target, x)
  }

  lemma {:induction false} TransferShiftsTotal(xs: seq<BankAccount>, ys: seq<BankAccount>,
                                               source: Option<string>, target: Option<string>, x: real)
    requires |ys| == |xs|
    requires forall i :: 0 <= i < |xs| ==>
      ys[i].balance.GetOr(0.0) == xs[i].balance.GetOr(0.0) + Delta(xs[i], source, target, x)
    ensures Total(ys) == Total(xs) + Flow(xs, source, target, x)
  {
    if xs != [] {
      assert forall i :: 0 <= i < |xs| - 1 ==> xs[1..][i] == xs[i + 1] && ys[1..][i] == ys[i + 1];
      TransferShiftsTotal(xs[1..], ys[1..], source, target, x);
    }
  }

  /** `n` copies of `x` added up. */
  function Times(n: nat, x: real): real {
    if n == 0 then 0.0 else x + Times(n - 1, x)
  }

  lemma {:induction false} TimesIsProduct(n: nat, x: real)
    ensures Times(n, x) == n as real * x
  {
    if n > 0 {
      TimesIsProduct(n - 1, x);
    }
  }

  /** Between two different numbers the net flow is the amount once per target account,
      less the amount once per source account. */
  lemma {:induction false} FlowCounts(xs: seq<BankAccount>, source: Option<string>, target: Option<string>, x: real)
    requires source != target
    ensures Flow(xs, source, target, x) == Times(Count(xs, target), x) - Times(Count(xs, source), x)
  {
    if xs != [] {
      FlowCounts(xs[1..], source, target, x);
    }
  }

  /** A successful TRANSFER_OUT between two different numbers moves the total of the
      balances by the amount once per target account, less once per source account. */
  lemma {:induction false} TransferOutMovesTotal(b: Books, t: Transaction)
    requires t.amount.Some? && t.accountNumber != t.targetAccountNumber
    requires BalancesKnown(b.accounts, t.accountNumber)
    requires BalancesKnown(b.accounts, t.targetAccountNumber)
    ensures ApplyKind(b, t, TRANSFER_OUT).result.Success? ==>
      Total(ApplyKind(b, t, TRANSFER_OUT).books.accounts) == Total(b.accounts) +
        Times(Count(b.accounts, t.targetAccountNumber), t.amount.value) -
        Times(Count(b.accounts, t.accountNumber), t.amount.value)
  {
    TransferOutRule(b, t);
    var r := ApplyKind(b, t, TRANSFER_OUT);
    if r.result.Success? {
      forall i | 0 <= i < |b.accounts|
        ensures r.books.accounts[i].balance.GetOr(0.0) ==
          b.accounts[i].balance.GetOr(0.0) + Delta(b.accounts[i], t.accountNumber, t.targetAccountNumber, t.amount.value)
      {
      }
      TransferShiftsTotal(b.accounts, r.books.accounts, t.accountNumber, t.targetAccountNumber, t.amount.value);
      FlowCounts(b.accounts, t.accountNumber, t.targetAccountNumber, t.amount.value);
    }
  }

  /** The same in closed form: the total moves by (#targets - #sources) times the amount. */
  lemma {:induction false} TransferOutShiftsTotal(b: Books, t: Transaction)
    requires t.amount.Some? && t.accountNumber != t.targetAccountNumber
    requires BalancesKnown(b.accounts, t.accountNumber)
    requires BalancesKnown(b.accounts, t.targetAccountNumber)
    ensures ApplyKind(b, t, TRANSFER_OUT).result.Success? ==>
      Total(ApplyKind(b, t, TRANSFER_OUT).books.accounts) == Total(b.accounts) +
        Count(b.accounts, t.targetAccountNumber) as real * t.amount.value -
        Count(b.accounts, t.accountNumber) as real * t.amount.value
  {
    TransferOutMovesTotal(b, t);
    TransferFlowIsProduct(b, t);
  }

  /** The transfer's flow in `Times` form equals its flow as products. */
  lemma {:induction false} TransferFlowIsProduct(b: Books, t: Transaction)
    requires t.amount.Some?
    ensures Times(Count(b.accounts, t.targetAccountNumber), t.amount.value) -
        Times(Count(b.accounts, t.accountNumber), t.amount.value) ==
      Count(b.accounts, t.targetAccountNumber) as real * t.amount.value -
        Count(b.accounts, t.accountNumber) as real * t.amount.value
  {
    TimesIsProduct(Count(b.accounts, t.targetAccountNumber), t.amount.value);
    TimesIsProduct(Count(b.accounts, t.accountNumber), t.amount.value);
  }

  /** In particular, between as many source as target accounts (one apiece, say), a
      successful TRANSFER_OUT keeps the total of the balances. */
  lemma {:induction false} TransferOutConservesTotal(b: Books, t: Transaction)
    requires t.amount.Some? && t.accountNumber != t.targetAccountNumber
    requires BalancesKnown(b.accounts, t.accountNumber)
    requires BalancesKnown(b.accounts, t.targetAccountNumber)
    requires Count(b.accounts, t.accountNumber) == Count(b.accounts, t.targetAccountNumber)
    ensures ApplyKind(b, t, TRANSFER_OUT).result.Success? ==>
      Total(ApplyKind(b, t, TRANSFER_OUT).books.accounts) == Total(b.accounts)
  {
    TransferOutMovesTotal(b, t);
  }

  /** The same transaction object applied twice is applied twice: there is no
      de-duplication, so two DEPOSITs credit twice and record twice. */
  lemma {:induction false} DepositTwiceCreditsTwice(b: Books, t: Transaction)
    requires t.amount.Some? && BalancesKnown(b.accounts, t.accountNumber)
    ensures var once := ApplyKind(b, t, DEPOSIT).books;
      var twice := ApplyKind(once, t, DEPOSIT);
      && twice.result == Success(t)
      && twice.books.history == b.history + [t, t]
      && forall i :: 0 <= i < |b.accounts| ==> (twice.books.accounts[i] ==
           if b.accounts[i].accountNumber == t.accountNumber then Credited(b.accounts[i], 2.0 * t.amount.value)
           else b.accounts[i])
  {
    var x := t.amount.value;
    DepositRule(b, t);
    var once := ApplyKind(b, t, DEPOSIT).books;
    assert forall i :: 0 <= i < |b.accounts| ==> once.accounts[i].accountNumber == b.accounts[i].accountNumber;
    DepositRule(once, t);
    var twice := ApplyKind(once, t, DEPOSIT);
    assert b.history + [t] + [t] == b.history + [t, t];
    CreditedTwice(b.accounts, once.accounts, twice.books.accounts, t.accountNumber, x);
  }

  /** Two crediting passes with the same amount credit each matching account twice. */
  lemma CreditedTwice(xs: seq<BankAccount>, ys: seq<BankAccount>, zs: seq<BankAccount>, key: Option<string>, x: real)
    requires |ys| == |xs| && |zs| == |xs| && BalancesKnown(xs, key) && BalancesKnown(ys, key)
    requires forall i :: 0 <= i < |xs| ==> ys[i] == if xs[i].accountNumber == key then Credited(xs[i], x) else xs[i]
    requires forall i :: 0 <= i < |xs| ==> zs[i] == if ys[i].accountNumber == key then Credited(ys[i], x) else ys[i]
    ensures forall i :: 0 <= i < |xs| ==> zs[i] == if xs[i].accountNumber == key then Credited(xs[i], 2.0 * x) else xs[i]
  {
    forall i | 0 <= i < |xs|
      ensures zs[i] == if xs[i].accountNumber == key then Credited(xs[i], 2.0 * x) else xs[i]
    {
      if xs[i].accountNumber == key {
        assert zs[i] == Credited(Credited(xs[i], x), x);
      }
    }
  }

  // ----- the operation on concrete books -----

  /** `Transaction` with the fields `addTransaction` reads. */
  function Order(kind: TransactionType, account: Option<string>, goal: Option<string>,
                 targetAccount: Option<string>, targetGoal: Option<string>, amount: real): Transaction
  {
    Transaction(None, Some(TypeName(kind)), account, goal, targetAccount, targetGoal, None, Some(amount), None, None)
  }

  function Account(number: string, balance: real): BankAccount {
    BankAccount(None, Some(number), None, None, Some(balance), None, None)
  }

  function Goal(name: string, saved: real): SavingsGoal {
    SavingsGoal(None, None, Some(name), None, Some(saved), None, None)
  }

  /** A transaction whose type field is the name of `kind` takes `kind`'s branch. */
  lemma {:induction false} NamedKindRoutes(b: Books, t: Transaction, kind: TransactionType)
    requires t.typeName == Some(TypeName(kind))
    ensures Apply(b, t) == ApplyKind(b, t, kind)
  {
    ValueOfName(kind);
    KindRoutes(b, t);
  }

  /** 1000 and 500, a transfer of 300 from the first to the second: 700 and 800, and one
      record appended. */
  lemma TransferOutExample()
    ensures var t := Order(TRANSFER_OUT, Some("A"), None, Some("B"), None, 300.0);
      Apply(Books([Account("A", 1000.0), Account("B", 500.0)], [], []), t) ==
      Outcome(Books([Account("A", 700.0), Account("B", 800.0)], [], [t]), Success(t))
  {
    var t := Order(TRANSFER_OUT, Some("A"), None, Some("B"), None, 300.0);
    var b := Books([Account("A", 1000.0), Account("B", 500.0)], [], []);
    NamedKindRoutes(b, t, TRANSFER_OUT);
    TransferOutBranch(b, t);
  }

  lemma TransferOutBranch(b: Books, t: Transaction)
    requires t == Order(TRANSFER_OUT, Some("A"), None, Some("B"), None, 300.0)
    requires b == Books([Account("A", 1000.0), Account("B", 500.0)], [], [])
    ensures ApplyKind(b, t, TRANSFER_OUT) ==
      Outcome(Books([Account("A", 700.0), Account("B", 800.0)], [], [t]), Success(t))
  {
    TransferOutRule(b, t);
    var r := ApplyKind(b, t, TRANSFER_OUT);
    assert !Overdrawn(b.accounts, t.accountNumber, 300.0);
    assert r.books.accounts[0] == Debited(b.accounts[0], 300.0);
    assert r.books.accounts[1] == Credited(b.accounts[1], 300.0);
    assert r.books.accounts == [Account("A", 700.0), Account("B", 800.0)];
  }

  /** A withdrawal of 150 from a balance of 100 fails and changes nothing. */
  lemma OverdraftExample()
    ensures var b := Books([Account("A", 100.0)], [], []);
      Apply(b, Order(WITHDRAW, Some("A"), None, None, None, 150.0)) ==
      Outcome(b, Failure(InsufficientBalance))
  {
    var t := Order(WITHDRAW, Some("A"), None, None, None, 150.0);
    var b := Books([Account("A", 100.0)], [], []);
    NamedKindRoutes(b, t, WITHDRAW);
    DebitRule(b, t, WITHDRAW);
    assert Overdrawn(b.accounts, t.accountNumber, 150.0) by { assert b.accounts[0].balance.value < 150.0; }
  }

  /** Goals holding 500 and 200, a goal transfer of 200 from the first: 300 and 400. */
  lemma GoalTransferExample()
    ensures var t := Order(TRANSFER_GOAL_OUT, None, Some("A"), None, Some("B"), 200.0);
      Apply(Books([], [Goal("A", 500.0), Goal("B", 200.0)], []), t) ==
      Outcome(Books([], [Goal("A", 300.0), Goal("B", 400.0)], [t]), Success(t))
  {
    var t := Order(TRANSFER_GOAL_OUT, None, Some("A"), None, Some("B"), 200.0);
    var b := Books([], [Goal("A", 500.0), Goal("B", 200.0)], []);
    NamedKindRoutes(b, t, TRANSFER_GOAL_OUT);
    GoalTransferBranch(b, t);
  }

  lemma GoalTransferBranch(b: Books, t: Transaction)
    requires t == Order(TRANSFER_GOAL_OUT, None, Some("A"), None, Some("B"), 200.0)
    requires b == Books([], [Goal("A", 500.0), Goal("B", 200.0)], [])
    ensures ApplyKind(b, t, TRANSFER_GOAL_OUT) ==
      Outcome(Books([], [Goal("A", 300.0), Goal("B", 400.0)], [t]), Success(t))
  {
    TransferGoalOutRule(b, t);
    var r := ApplyKind(b, t, TRANSFER_GOAL_OUT);
    assert !GoalOverdrawn(b.goals, t.goalName, 200.0);
    assert r.books.goals[0] == GoalDebited(b.goals[0], 200.0);
    assert r.books.goals[1] == GoalCredited(b.goals[1], 200.0);
    assert r.books.goals == [Goal("A", 300.0), Goal("B", 400.0)];
  }

  /** Withdrawing 20 from a goal holding 5 into an account holding 10 fails, yet the
      account ends at 30. */
  lemma WithdrawGoalExample()
    ensures var b := Books([Account("A", 10.0)], [Goal("G", 5.0)], []);
      Apply(b, Order(WITHDRAW_GOAL, Some("A"), Some("G"), None, None, 20.0)) ==
      Outcome(b.(accounts := [Account("A", 30.0)]), Failure(InsufficientBalance))
  {
    var t := Order(WITHDRAW_GOAL, Some("A"), Some("G"), None, None, 20.0);
    var b := Books([Account("A", 10.0)], [Goal("G", 5.0)], []);
    NamedKindRoutes(b, t, WITHDRAW_GOAL);
    WithdrawGoalRule(b, t);
    assert GoalOverdrawn(b.goals, t.goalName, 20.0) by { assert b.goals[0].savedAmount.value < 20.0; }
    var r := Apply(b, t);
    assert r.books.accounts == [Account("A", 30.0)];
  }
}
