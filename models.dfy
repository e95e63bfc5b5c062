/** The record and enum types of the application (src/main/kotlin/models/). Every Kotlin
    field is nullable (`String?`, `Double?`), so every field is an `Option`. Amounts are
    exact reals; a `LocalDate` is a day number and a `LocalDateTime` an instant number,
    because the clock is not modelled. */
module Models {
  import opened Wrappers
  import Currency

  type Day = int
  type Instant = int

  datatype BankAccount = BankAccount(
    id: Option<string>,
    accountNumber: Option<string>,
    holderName: Option<string>,
    bankName: Option<string>,
    balance: Option<real>,
    currency: Option<string>,
    createdAt: Option<Day>)

  datatype SavingsGoal = SavingsGoal(
    id: Option<string>,
    accountNumber: Option<string>,
    goalName: Option<string>,
    targetAmount: Option<real>,
    savedAmount: Option<real>,
    currency: Option<string>,
    createdAt: Option<Day>)

  datatype User = User(
    id: Option<string>,
    name: Option<string>,
    email: Option<string>,
    passwordHash: Option<string>,
    salt: Option<string>,
    createdAt: Option<Day>)

  /** `User(name = …, email = …, passwordHash = …)` with the other parameters at their
      defaults (`id = ""`, `salt = ""`, `createdAt = LocalDate.now()`). */
  function NewUser(name: string, email: string, passwordHash: string, today: Day): (u: User)
  {
    User(Some(""), Some(name), Some(email), Some(passwordHash), Some(""), Some(today))
  }

  datatype Screen =
    Dashboard | Accounts | Transactions | Settings | Login | Signup | CreateNew |
    AccountDetails | SavingsGoalDetails | TransactionDetails | SavingsGoals | Budgets |
    Reports | Notifications | Profile | AddBankAccount | AddSavingsGoal | AddTransaction | Logout

  datatype LoadingStates = LoadingStates(
    loadingAccounts: bool,
    loadingSavings: bool,
    loadingTransactions: bool,
    loadingUser: bool,
    loadingAll: bool)
}
