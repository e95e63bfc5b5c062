/** The transaction record and its decoders (src/main/kotlin/models/Transaction.kt), and
    the eight transaction types (the constants the ledger's exhaustive `when` names). */
module Transactions {
  import opened Wrappers
  import opened Seqs
  import opened Models
  import Currency

  datatype TransactionType =
    DEPOSIT | WITHDRAW | TRANSFER_OUT | TRANSFER_OUT_TO |
    DEPOSIT_GOAL | WITHDRAW_GOAL | TRANSFER_GOAL_OUT | TRANSFER_GOAL_OUT_TO

  const AllTypes: seq<TransactionType> :=
    [DEPOSIT, WITHDRAW, TRANSFER_OUT, TRANSFER_OUT_TO,
     DEPOSIT_GOAL, WITHDRAW_GOAL, TRANSFER_GOAL_OUT, TRANSFER_GOAL_OUT_TO]

  function TypeOrdinal(t: TransactionType): (i: nat)
    ensures i < |AllTypes| && AllTypes[i] == t
  {
    match t
    case DEPOSIT => 0 case WITHDRAW => 1 case TRANSFER_OUT => 2 case TRANSFER_OUT_TO => 3
    case DEPOSIT_GOAL => 4 case WITHDRAW_GOAL => 5 case TRANSFER_GOAL_OUT => 6
    case TRANSFER_GOAL_OUT_TO => 7
  }

  /** The constant's `name`. */
  function TypeName(t: TransactionType): string {
    match t
    case DEPOSIT => "DEPOSIT" case WITHDRAW => "WITHDRAW"
    case TRANSFER_OUT => "TRANSFER_OUT" case TRANSFER_OUT_TO => "TRANSFER_OUT_TO"
    case DEPOSIT_GOAL => "DEPOSIT_GOAL" case WITHDRAW_GOAL => "WITHDRAW_GOAL"
    case TRANSFER_GOAL_OUT => "TRANSFER_GOAL_OUT" case TRANSFER_GOAL_OUT_TO => "TRANSFER_GOAL_OUT_TO"
  }

  /** `TransactionType.valueOf(s)`: the constant named exactly `s` (case-sensitive);
      `None` is the `IllegalArgumentException` it throws otherwise. */
  function ValueOf(s: string): (r: Option<TransactionType>)
    ensures r.Some? ==> TypeName(r.value) == s
    ensures r.None? <==> forall t :: TypeName(t) != s
  {
    var found := FindFirst(AllTypes, t => TypeName(t) == s);
    assert found.None? ==> forall t :: TypeName(t) != s by {
      if found.None? {
        forall t ensures TypeName(t) != s { assert AllTypes[TypeOrdinal(t)] == t; }
      }
    }
    found
  }

  lemma TypeNameIdentifies(t: TransactionType, u: TransactionType)
    requires TypeName(u) == TypeName(t)
    ensures u == t
  {
  }

  lemma {:induction false} ValueOfName(t: TransactionType)
    ensures ValueOf(TypeName(t)) == Some(t)
  {
    TypeNameIdentifies(t, ValueOf(TypeName(t)).value);
  }

  datatype Transaction = Transaction(
    id: Option<string>,
    typeName: Option<string>,
    accountNumber: Option<string>,
    goalName: Option<string>,
    targetAccountNumber: Option<string>,
    targetGoalName: Option<string>,
    targetUserEmail: Option<string>,
    amount: Option<real>,
    timestamp: Option<Instant>,
    currency: Option<string>)

  /** `Transaction()` with every parameter at its default; `now` is `LocalDateTime.now()`. */
  function DefaultTransaction(now: Instant): Transaction {
    Transaction(Some(""), Some(TypeName(DEPOSIT)), Some(""), Some(""), None, None, None,
                Some(0.0), Some(now), Some(Currency.Code(Currency.USD)))
  }

  /** `getTheTransactionType()`: a null type reads as DEPOSIT; otherwise `valueOf`, whose
      failure (`None`) is the exception it throws. */
  function GetTheTransactionType(t: Transaction): (r: Option<TransactionType>)
    ensures t.typeName.None? ==> r == Some(DEPOSIT)
    ensures t.typeName.Some? ==> (r.Some? <==> exists u :: TypeName(u) == t.typeName.value)
    ensures t.typeName.Some? && r.Some? ==> TypeName(r.value) == t.typeName.value
  {
    ValueOfName(DEPOSIT);
    ValueOf(t.typeName.GetOr(TypeName(DEPOSIT)))
  }

  /** `getTheCurrency()`: a null currency reads as USD; otherwise `CurrencyType.find`. */
  function GetTheCurrency(t: Transaction): (r: Currency.CurrencyType)
    ensures t.currency.None? ==> r == Currency.USD
    ensures t.currency.Some? ==> r == Currency.Find(t.currency.value)
  {
    match t.currency
    case None => Currency.USD
    case Some(code) => Currency.Find(code)
  }

  /** `getCurrencySymbol()`. */
  function GetCurrencySymbol(t: Transaction): (sym: string)
    ensures sym == Currency.Symbol(GetTheCurrency(t))
  {
    Currency.Symbol(GetTheCurrency(t))
  }

  /** What a stored currency reads back as: the currency whose code or full name was
      stored, USD for a null field, and USD for any symbol. */
  lemma {:induction false} StoredCurrencyDecodes(t: Transaction, c: Currency.CurrencyType)
    ensures GetTheCurrency(t.(currency := Some(Currency.Code(c)))) == c
    ensures GetTheCurrency(t.(currency := Some(Currency.FullName(c)))) == c
    ensures GetTheCurrency(t.(currency := Some(Currency.Symbol(c)))) == Currency.USD
    ensures GetTheCurrency(t.(currency := None)) == Currency.USD
  {
    Currency.FindByCode(c);
    Currency.FindByFullName(c);
    Currency.FindBySymbolIsUsd(c);
  }

  /** The symbol shown for a transaction: that of the currency stored by code or full
      name, and "$" for a null field or a stored symbol other than "$". */
  lemma {:induction false} StoredCurrencySymbol(t: Transaction, c: Currency.CurrencyType)
    ensures GetCurrencySymbol(t.(currency := Some(Currency.Code(c)))) == Currency.Symbol(c)
    ensures GetCurrencySymbol(t.(currency := Some(Currency.FullName(c)))) == Currency.Symbol(c)
    ensures GetCurrencySymbol(t.(currency := Some(Currency.Symbol(c)))) == "$"
    ensures GetCurrencySymbol(t.(currency := None)) == "$"
  {
    StoredCurrencyDecodes(t, c);
  }

  /** A fresh default record decodes as a USD deposit of zero from the empty account. */
  lemma DefaultTransactionDecodes(now: Instant)
    ensures GetTheTransactionType(DefaultTransaction(now)) == Some(DEPOSIT)
    ensures GetTheCurrency(DefaultTransaction(now)) == Currency.USD
    ensures GetCurrencySymbol(DefaultTransaction(now)) == "$"
    ensures DefaultTransaction(now).amount == Some(0.0)
    ensures DefaultTransaction(now).accountNumber == Some("") && DefaultTransaction(now).goalName == Some("")
    ensures DefaultTransaction(now).targetAccountNumber.None? && DefaultTransaction(now).targetGoalName.None?
    ensures DefaultTransaction(now).targetUserEmail.None?
  {
    ValueOfName(DEPOSIT);
    Currency.FindByCode(Currency.USD);
  }

  /** `valueOf` is case-sensitive: a lower-case type name does not decode. */
  lemma WrongCaseTypeDoesNotDecode(t: Transaction)
    requires t.typeName == Some("deposit")
    ensures GetTheTransactionType(t).None?
  {
    forall u ensures TypeName(u) != "deposit" { }
  }
}
