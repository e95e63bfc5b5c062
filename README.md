# Personal Finance Tracker: a verified model of its core

The Personal Finance Tracker is a Compose desktop application. It keeps bank accounts,
savings goals and a transaction history in one `MainViewModel`, and its screens collect
and validate a user's input before handing it over. This project models the logic under
those screens in Dafny and proves what it does:

- The ledger rule table of `MainViewModel.addTransaction`. Eight transaction types change
  account balances and goal savings. A transaction can fail on an insufficient balance, a
  null field or an unknown type name.
  - `Ledger` states the rules as pure functions over the three collections.
  - `MainViewModels.MainViewModel` performs the same steps on its fields, in the order the
    source does: lists are rebuilt, except that DEPOSIT credits in place. It is proved
    equal to `Ledger.Apply`.
- The rest of `MainViewModel`: the navigation stack, adding and deleting records, the
  selected records and the signed-in user.
- The enum decoders `CurrencyType.find`, `AppColorScheme.fromString` and
  `AppColorTheme.fromString`, and the `Transaction` record's accessors.
- `SettingsViewModel`. The user's preferences node is a `map<string, string>`, and the
  model proves which settings survive a restart.
- The two fixed regular expressions (email, password) as character-level predicates,
  proved equal to the expression's structure.
- The forms: sign-up, login, profile, and the dialogs that create an account, a savings
  goal and a transaction. Each form's error map is a function of its inputs. The model
  proves that the map is empty exactly when every check passes, and it covers every
  message, including those that later `put`s overwrite.
- `ViewModelStore`, a `getOrPut` registry of view models keyed by class name.

Amounts are exact reals. Kotlin's nullable fields are `Option`s, so a failing `!!` is a
modelled outcome (`Ledger.Fault.NullField`). Coroutines run as one synchronous step.
Today's date, the current time and the simulator's generated data are parameters.

### Where the code differs from its apparent intent (modelled as written)

- WITHDRAW_GOAL is not atomic. The account credit is assigned before the goal's balance
  check, so a failed withdrawal from a goal still credits the account
  (`Ledger.WithdrawGoalRule`, `Ledger.WithdrawGoalExample`). Every other type leaves the
  books unchanged when its balance check fails (`Ledger.InsufficientKeepsBooks`).
- A DEPOSIT that meets a null balance part-way through keeps the credits it has already
  made, because it mutates the accounts in place (`Ledger.DepositKeepsPartialCredit`).
- `navigateBack` uses `List.minus`, which removes the first occurrence of the top screen.
  When that screen is on the stack twice, the lower copy goes and the top stays
  (`MainViewModels.BackRemovesLowerCopy`).
- Settings store the theme and the scheme by constant `name`, but read them back by
  `value` and by display name. After a restart every theme is SYSTEM and every scheme is
  DEFAULT_BLUE (`Settings.ThemeIsNotRestored`, `Settings.SchemeIsNotRestored`).
- The login form reports an empty password with the message "Invalid email address".
- The transaction form checks only that the amount is not blank. "1.2.3" passes, and
  `toDouble()` then throws (`TransactionForms.TwoDotsPassValidationButDoNotParse`).
- The goal form's "Cannot be negative" message can never be shown, because the input
  filter admits no sign (`SavingForms.GoalErrors`).
- The profile form checks the current password and the new password whether or not the
  password switch is on (`ProfileScreens.NoErrorsIffValid`).

## Model

| member | source | states |
|---|---|---|
| Seqs.FindFirst | src/main/kotlin/models/CurrencyType.kt:18 | `find` returns the first element that passes the test, and null exactly when none passes |
| Seqs.RemoveAll | src/main/kotlin/viewModels/MainViewModel.kt:265-267 | `filter { it != x }` leaves no copy of `x`, removes exactly its copies (multiset), and keeps the others in order (see RemoveAllAppend, RemoveAllSingle) |
| Seqs.RemoveAllAppend | src/main/kotlin/viewModels/MainViewModel.kt:265-267 | filtering a concatenation filters each part and keeps them in order |
| Seqs.RemoveAllSingle | src/main/kotlin/viewModels/MainViewModel.kt:265-267 | a single element is dropped exactly when it equals `x`, and kept otherwise |
| Seqs.RemoveAllSnoc | src/main/kotlin/viewModels/MainViewModel.kt:265-267 | filtering a list with one more element at the end filters the list and then that element |
| Seqs.RemoveFirst | src/main/kotlin/viewModels/MainViewModel.kt:58-62 | `List.minus(x)` removes the first occurrence of `x`, keeping everything before and after it in order, and changes nothing when `x` is absent |
| Currency.Find | src/main/kotlin/models/CurrencyType.kt:17-19 | the result matches by code or full name and no earlier constant does; USD when nothing matches |
| Currency.FindFirstIsFirst | src/main/kotlin/models/CurrencyType.kt:18 | `entries.find` over the table, for any test: the first hit, or no constant passes |
| Currency.FindByCode | src/main/kotlin/models/CurrencyType.kt:4-19 | `find(c.code) == c` for all ten constants |
| Currency.FindByFullName | src/main/kotlin/models/CurrencyType.kt:4-19 | `find(c.fullName) == c` for all ten constants |
| Currency.CodeIdentifies | src/main/kotlin/models/CurrencyType.kt:4-14 | a code matches no other constant by code or full name |
| Currency.FullNameIdentifies | src/main/kotlin/models/CurrencyType.kt:4-14 | a full name matches no other constant by code or full name |
| Currency.FindBySymbolIsUsd | src/main/kotlin/models/CurrencyType.kt:7-18 | `find` ignores symbols: every symbol, the "¥" of JPY and CNY included, gives USD |
| Currency.MissIsUsd | src/main/kotlin/models/CurrencyType.kt:18 | a string that matches no constant gives USD |
| Currency.NameIsCode | src/main/kotlin/models/CurrencyType.kt:4-14 | each constant's `name` is its code, so `find(name)` gives the constant back |
| Transactions.ValueOf | src/main/kotlin/models/Transaction.kt:29 | `valueOf` names the constant whose name is exactly the string, and fails exactly when no name matches |
| Transactions.ValueOfName | src/main/kotlin/models/Transaction.kt:29 | `valueOf(t.name) == t` for all eight types |
| Transactions.TypeNameIdentifies | src/main/kotlin/viewModels/MainViewModel.kt:93-220 | the eight type names are distinct |
| Transactions.GetTheTransactionType | src/main/kotlin/models/Transaction.kt:28-30 | a null type reads as DEPOSIT; otherwise the constant with exactly that name, and failure when there is none |
| Transactions.StoredCurrencyDecodes | src/main/kotlin/models/Transaction.kt:18-20 | `getTheCurrency` gives back every constant stored by code or by full name; a stored symbol or a null currency reads as USD |
| Transactions.StoredCurrencySymbol | src/main/kotlin/models/Transaction.kt:22-24 | `getCurrencySymbol` is the symbol of the constant stored by code or full name, and "$" for a stored symbol or a null currency |
| Transactions.DefaultTransactionDecodes | src/main/kotlin/models/Transaction.kt:6-17 | the defaults: a USD ("$") DEPOSIT of 0.0 from account "" and goal "", with no targets |
| Transactions.WrongCaseTypeDoesNotDecode | src/main/kotlin/models/Transaction.kt:29 | `valueOf` is case-sensitive: "deposit" does not decode |
| AppColor.SchemeFromString | src/main/kotlin/ui/theme/app_color.kt:25-27 | the scheme with that display name, else DEFAULT_BLUE |
| AppColor.SchemeFromDisplayName | src/main/kotlin/ui/theme/app_color.kt:11-17 | `fromString(s.displayName) == s` for all seven schemes |
| AppColor.DisplayNameIdentifies | src/main/kotlin/ui/theme/app_color.kt:11-17 | the display names are distinct |
| AppColor.SchemeFromNameIsDefault | src/main/kotlin/ui/theme/app_color.kt:11-17 | every constant `name`, such as "EMERALD_COURT", decodes to DEFAULT_BLUE |
| AppColor.ThemeFromString | src/main/kotlin/ui/theme/app_color.kt:41-43 | the theme with that `value`, else SYSTEM |
| AppColor.ThemeFromValue | src/main/kotlin/ui/theme/app_color.kt:35-43 | `fromString(t.value) == t` for LIGHT, DARK and SYSTEM |
| AppColor.ThemeFromNameIsSystem | src/main/kotlin/ui/theme/app_color.kt:35-43 | the `name`s "LIGHT", "DARK" and "SYSTEM" all decode to SYSTEM |
| Settings.GetBoolean | src/main/kotlin/viewModels/SettingsViewModel.kt:28 | "true" and "false" in any ASCII case read as themselves; any other stored text, or a missing key, gives the default |
| Settings.GetAfterPut | src/main/kotlin/viewModels/SettingsViewModel.kt:13-36 | `get` after `put` reads the value just put under its own key, and every other key as before; the empty node reads as the default |
| Settings.SettingsViewModel.constructor | src/main/kotlin/viewModels/SettingsViewModel.kt:13-36 | the four settings are the stored values decoded by `Load` |
| Settings.SettingsViewModel.SetAppColorTheme | src/main/kotlin/viewModels/SettingsViewModel.kt:39-43 | the theme and its key change; the other settings and keys do not |
| Settings.SettingsViewModel.SetAppColorScheme | src/main/kotlin/viewModels/SettingsViewModel.kt:45-49 | the scheme and its key change; the other settings and keys do not |
| Settings.SettingsViewModel.SetCompactLayout | src/main/kotlin/viewModels/SettingsViewModel.kt:51-55 | the flag and its key change; the other settings and keys do not |
| Settings.SettingsViewModel.SetDefaultCurrency | src/main/kotlin/viewModels/SettingsViewModel.kt:57-61 | the currency and its key (the code) change; the other settings and keys do not |
| Settings.DefaultsWhenEmpty | src/main/kotlin/viewModels/SettingsViewModel.kt:13-36 | with nothing stored: SYSTEM, DEFAULT_BLUE, not compact, USD |
| Settings.KeysDistinct | src/main/kotlin/viewModels/SettingsViewModel.kt:15-34 | the four preference keys are distinct |
| Settings.CurrencyIsRestored | src/main/kotlin/viewModels/SettingsViewModel.kt:32-61 | a stored currency is read back by a new instance |
| Settings.CompactIsRestored | src/main/kotlin/viewModels/SettingsViewModel.kt:27-55 | a stored layout flag is read back by a new instance |
| Settings.ThemeIsNotRestored | src/main/kotlin/viewModels/SettingsViewModel.kt:13-43 | any theme that was stored reloads as SYSTEM |
| Settings.SchemeIsNotRestored | src/main/kotlin/viewModels/SettingsViewModel.kt:20-49 | any scheme that was stored reloads as DEFAULT_BLUE |
| Settings.ReloadAfterCurrencyChange | src/main/kotlin/viewModels/SettingsViewModel.kt:13-61 | after a currency change a new instance has that currency and the other settings as before |
| Text.LeadingDigits | src/main/kotlin/ui/screens/create_account.kt:109 | the longest run of digits at the start of the text |
| Text.DecimalTextIsDigitsWithOneDot | src/main/kotlin/ui/screens/create_account.kt:109 | `^\d*\.?\d*$` admits exactly the texts of digits and dots with at most one dot |
| Text.ParseDecimal | src/main/kotlin/ui/screens/create_account.kt:55-57 | `toDoubleOrNull` on filtered text: null exactly when there is no digit, else not negative, and positive exactly when some digit is not '0' |
| Text.KeepDigitsAndDots | src/main/kotlin/ui/screens/create_transaction.kt:145 | the filter keeps only digits and dots, and keeps clean text as typed (with KeepDigitsAndDotsAppend and KeepDigitsAndDotsChar: every digit and dot, in order) |
| Text.KeepDigitsAndDotsAppend | src/main/kotlin/ui/screens/create_transaction.kt:145 | filtering a concatenation filters each part and keeps them in order |
| Text.KeepDigitsAndDotsChar | src/main/kotlin/ui/screens/create_transaction.kt:145 | one character is kept exactly when it is a digit or a dot |
| Text.ParseDigitsAndDots | src/main/kotlin/ui/screens/create_transaction.kt:99 | `toDouble` on digits and dots succeeds exactly on one dot at most and at least one digit; its value is the decimal the text denotes, never negative, and positive exactly when some digit is not '0' |
| Text.NoLeadingPair | src/main/kotlin/ui/screens/create_transaction.kt:80-89 | a word is not contained, ignoring case, in a text where its first two letters never appear side by side |
| Validation.EmailScanMatchesShape | src/main/kotlin/viewModels/MainViewModel.kt:351-354 | the email check accepts exactly L "@" D "." T: local characters, domain characters, two or more letters |
| Validation.EmailScanIsShaped | src/main/kotlin/viewModels/SignupViewModel.kt:61-64 | every accepted address has the expression's shape |
| Validation.ShapedEmailScans | src/main/kotlin/viewModels/LoginViewModel.kt:35-38 | every address of the expression's shape is accepted |
| Validation.EmailAccepted | src/main/kotlin/viewModels/MainViewModel.kt:352 | "ann@bank.com" is accepted |
| Validation.ShortTopLabelRejected | src/main/kotlin/viewModels/MainViewModel.kt:352 | "ann@bank.c", with a one-letter top-level label, is refused |
| Validation.PasswordExamples | src/main/kotlin/viewModels/SignupViewModel.kt:56-59 | one password is accepted; too short, no capital and no digit are each refused |
| Validation.PasswordRejections | src/main/kotlin/viewModels/SignupViewModel.kt:56-59 | `validatePassword` refuses exactly the passwords shorter than eight, holding a line terminator, without a capital or without a digit |
| Validation.ValidPasswordExtends | src/main/kotlin/viewModels/SignupViewModel.kt:56-59 | appending characters other than line terminators to an accepted password keeps it accepted |
| Validation.ValidEmailHasOneAt | src/main/kotlin/viewModels/SignupViewModel.kt:61-64 | an address `isValidEmail` accepts holds exactly one '@' |
| ErrorMaps.PutIf | src/main/kotlin/viewModels/SignupViewModel.kt:67-79 | a conditional `put` sets its key when the test holds and leaves every other key alone |
| Ledger.MapUntil | src/main/kotlin/viewModels/MainViewModel.kt:104-114 | a `map` with `return@launch`: every element is stepped when nothing aborts; otherwise it stops at the first abort, with earlier elements stepped and later ones untouched |
| Ledger.Apply | src/main/kotlin/viewModels/MainViewModel.kt:89-227 | success returns the transaction and appends it once; failure appends nothing; a null or unknown type changes nothing |
| Ledger.ApplyKind | src/main/kotlin/viewModels/MainViewModel.kt:93-222 | per type: success appends exactly once, failure appends nothing, and list lengths are kept |
| Ledger.KindRoutes | src/main/kotlin/viewModels/MainViewModel.kt:93 | a decoded type takes its own branch |
| Ledger.NamedKindRoutes | src/main/kotlin/viewModels/MainViewModel.kt:93 | a type field holding a constant's name takes that constant's branch |
| Ledger.AllKeptIsIdentity | src/main/kotlin/viewModels/MainViewModel.kt:99 | a pass that keeps every element leaves the list as it was |
| Ledger.PassFault | src/main/kotlin/viewModels/MainViewModel.kt:106-109 | a pass whose aborts all carry one fault stops, if it stops, with that fault |
| Ledger.StopsAtFirstAbort | src/main/kotlin/viewModels/MainViewModel.kt:95-100 | a pass stops at its first abort with that element's fault; earlier elements are stepped, later ones untouched |
| Ledger.CreditPass | src/main/kotlin/viewModels/MainViewModel.kt:95-100 | with balances known, a credit pass never fails and credits exactly the matching accounts |
| Ledger.DebitPass | src/main/kotlin/viewModels/MainViewModel.kt:104-114 | a debit pass fails exactly when a matching account holds less than the amount; otherwise it debits exactly the matching accounts |
| Ledger.TransferPass | src/main/kotlin/viewModels/MainViewModel.kt:118-138 | a transfer pass fails exactly on an overdrawn source; otherwise sources are debited, targets credited and the source branch wins |
| Ledger.GoalCreditPass | src/main/kotlin/viewModels/MainViewModel.kt:153-159 | with savings known, a goal credit pass never fails and credits exactly the matching goals |
| Ledger.GoalDebitPass | src/main/kotlin/viewModels/MainViewModel.kt:170-180 | a goal debit pass fails exactly on an overdrawn matching goal; otherwise it debits exactly the matching goals |
| Ledger.GoalTransferPass | src/main/kotlin/viewModels/MainViewModel.kt:184-204 | a goal transfer pass fails exactly on an overdrawn source goal; otherwise it debits sources and credits targets, and the source branch wins |
| Ledger.DepositRule | src/main/kotlin/viewModels/MainViewModel.kt:94-101 | DEPOSIT succeeds, credits every matching account, changes nothing else and leaves goals alone |
| Ledger.DebitRule | src/main/kotlin/viewModels/MainViewModel.kt:103-115 | WITHDRAW and TRANSFER_OUT_TO fail exactly when a match holds less, and then change nothing; otherwise they debit every match (down to 0 when equal), with no credit leg |
| Ledger.TransferOutRule | src/main/kotlin/viewModels/MainViewModel.kt:117-139 | TRANSFER_OUT fails exactly on an overdrawn source and then changes nothing; otherwise it debits the source and credits the target |
| Ledger.SelfTransferOnlyDebits | src/main/kotlin/viewModels/MainViewModel.kt:119-130 | a transfer to the same number only debits: the first branch wins |
| Ledger.DepositGoalRule | src/main/kotlin/viewModels/MainViewModel.kt:141-160 | DEPOSIT_GOAL fails exactly on an overdrawn account, leaving goals untouched; otherwise it debits the accounts and credits the matching goals |
| Ledger.WithdrawGoalRule | src/main/kotlin/viewModels/MainViewModel.kt:162-181 | WITHDRAW_GOAL always leaves the accounts credited; it fails exactly on an overdrawn goal, with goals and history unchanged |
| Ledger.TransferGoalOutRule | src/main/kotlin/viewModels/MainViewModel.kt:183-205 | TRANSFER_GOAL_OUT fails exactly on an overdrawn source goal and then changes nothing; otherwise it debits the source goal, credits the target and leaves accounts alone |
| Ledger.TransferGoalOutToRule | src/main/kotlin/viewModels/MainViewModel.kt:207-219 | TRANSFER_GOAL_OUT_TO fails exactly on an overdrawn goal and then changes nothing; otherwise it only debits |
| Ledger.DepositKeepsPartialCredit | src/main/kotlin/viewModels/MainViewModel.kt:95-100 | a null balance part-way through a DEPOSIT fails it, with the earlier matches credited and the rest untouched |
| Ledger.CreditNeverOverdraws | src/main/kotlin/viewModels/MainViewModel.kt:95-100 | an account credit pass never reports an insufficient balance |
| Ledger.GoalCreditNeverOverdraws | src/main/kotlin/viewModels/MainViewModel.kt:153-159 | a goal credit pass never reports an insufficient balance |
| Ledger.InsufficientKeepsBooks | src/main/kotlin/viewModels/MainViewModel.kt:103-219 | an insufficient balance leaves everything unchanged, for every type but WITHDRAW_GOAL |
| Ledger.UnmatchedIsRecordedAsSuccess | src/main/kotlin/viewModels/MainViewModel.kt:93-222 | a transaction that matches no account and no goal changes no balance and is still appended as a success |
| Ledger.TransferShiftsTotal | src/main/kotlin/viewModels/MainViewModel.kt:117-139 | the total changes by the net flow of the transfer |

| Ledger.TimesIsProduct | src/main/kotlin/viewModels/MainViewModel.kt:117-139 | adding the amount once per matching account is the amount times the number of matches, which turns the net flow into closed form for TransferOutShiftsTotal |
| Ledger.FlowCounts | src/main/kotlin/viewModels/MainViewModel.kt:117-139 | the net flow is the amount per target account less the amount per source account |
| Ledger.TransferOutMovesTotal | src/main/kotlin/viewModels/MainViewModel.kt:117-139 | a successful TRANSFER_OUT between different numbers moves the total by the amount once per target account, less once per source account |
| Ledger.TransferOutShiftsTotal | src/main/kotlin/viewModels/MainViewModel.kt:117-139 | the same in closed form: the total moves by (#targets × amount) − (#sources × amount) |
| Ledger.TransferOutConservesTotal | src/main/kotlin/viewModels/MainViewModel.kt:117-139 | a successful transfer between as many source as target accounts keeps the total balance |
| Ledger.DepositTwiceCreditsTwice | src/main/kotlin/viewModels/MainViewModel.kt:94-101 | the same DEPOSIT twice credits twice and is appended twice: no de-duplication |
| Ledger.CreditedTwice | src/main/kotlin/viewModels/MainViewModel.kt:97 | two credits of x are one credit of 2x |
| Ledger.TransferOutExample | src/main/kotlin/viewModels/MainViewModel.kt:117-139 | balances 1000 and 500, a transfer of 300: 700 and 800, one record |
| Ledger.OverdraftExample | src/main/kotlin/viewModels/MainViewModel.kt:103-115 | withdrawing 150 from 100 fails and changes nothing |
| Ledger.GoalTransferExample | src/main/kotlin/viewModels/MainViewModel.kt:183-205 | goals 500 and 200, a goal transfer of 200: 300 and 400 |
| Ledger.WithdrawGoalExample | src/main/kotlin/viewModels/MainViewModel.kt:162-181 | withdrawing 20 from a goal of 5 fails, yet the account goes from 10 to 30 |
| MainViewModels.RunPass | src/main/kotlin/viewModels/MainViewModel.kt:104-114 | the loop builds the new list and returns exactly what `Ledger.MapUntil` specifies |
| MainViewModels.MainViewModel.StepInPlace | src/main/kotlin/viewModels/MainViewModel.kt:95-100 | the in-place DEPOSIT loop leaves the accounts and the fault as `Ledger.MapUntil` says; every other field of the view model is unchanged |
| MainViewModels.MainViewModel.AddTransactionOfKind | src/main/kotlin/viewModels/MainViewModel.kt:93-222 | the books and the reported result are `Ledger.ApplyKind` of the old books; every other field of the view model (user, stack, selections, default currency, loading states) is unchanged |
| MainViewModels.MainViewModel.AddTransaction | src/main/kotlin/viewModels/MainViewModel.kt:89-227 | the books and the reported result are `Ledger.Apply` of the old books; every other field of the view model is unchanged |
| MainViewModels.MainViewModel.constructor | src/main/kotlin/viewModels/MainViewModel.kt:12-51 | empty collections, no user or selection, USD, and a stack of just Login |
| MainViewModels.MainViewModel.NavigateTo | src/main/kotlin/viewModels/MainViewModel.kt:54-56 | the screen is pushed and becomes current, there is a way back exactly when the stack was not empty, and every other field is unchanged |
| MainViewModels.MainViewModel.NavigateBack | src/main/kotlin/viewModels/MainViewModel.kt:58-62 | only with a way back does anything change: then the first copy of the top screen is removed, the size drops by one, and a top that also sits lower stays current; every other field is unchanged |
| MainViewModels.MainViewModel.ClearNavigationStack | src/main/kotlin/viewModels/MainViewModel.kt:64-66 | the stack becomes exactly that screen, with no way back; every other field is unchanged |
| MainViewModels.MainViewModel.Logout | src/main/kotlin/viewModels/MainViewModel.kt:72-75 | the stack becomes exactly Login and the user is null; every other field is unchanged |
| MainViewModels.BackPopsUniqueTop | src/main/kotlin/viewModels/MainViewModel.kt:58-62 | when the top screen is on the stack once, going back pops it |
| MainViewModels.BackUndoesNavigateTo | src/main/kotlin/viewModels/MainViewModel.kt:54-62 | going back right after navigating to a screen not yet on the stack restores the stack |
| MainViewModels.BackKeepsDuplicatedTop | src/main/kotlin/viewModels/MainViewModel.kt:58-62 | when the top screen also sits lower, going back removes a lower copy and the top stays current |
| MainViewModels.BackRemovesLowerCopy | src/main/kotlin/viewModels/MainViewModel.kt:58-62 | Login, Dashboard, Accounts, Dashboard goes back to Login, Accounts, Dashboard |
| MainViewModels.MainViewModel.AddAccount | src/main/kotlin/viewModels/MainViewModel.kt:81-87 | the record is appended to the accounts and reported back; every other field of the view model is unchanged |
| MainViewModels.MainViewModel.AddSavingsGoal | src/main/kotlin/viewModels/MainViewModel.kt:229-235 | the record is appended to the goals and reported back; every other field of the view model is unchanged |
| MainViewModels.MainViewModel.DeleteAccount | src/main/kotlin/viewModels/MainViewModel.kt:265-267 | the accounts become `RemoveAll` of the old ones: every equal copy goes and the rest keep their order; every other field is unchanged |
| MainViewModels.MainViewModel.DeleteSavingsGoal | src/main/kotlin/viewModels/MainViewModel.kt:269-271 | the goals become `RemoveAll` of the old ones: every equal copy goes and the rest keep their order; every other field is unchanged |
| MainViewModels.MainViewModel.DeleteTransaction | src/main/kotlin/viewModels/MainViewModel.kt:273-275 | the transactions become `RemoveAll` of the old ones: every equal copy goes and the rest keep their order; every other field is unchanged |
| MainViewModels.MainViewModel.SetActiveAccount | src/main/kotlin/viewModels/MainViewModel.kt:249-251 | the selected account is set; every other field of the view model is unchanged |
| MainViewModels.MainViewModel.RemoveActiveAccount | src/main/kotlin/viewModels/MainViewModel.kt:253-255 | the selected account is cleared; every other field of the view model is unchanged |
| MainViewModels.MainViewModel.SetActiveGoal | src/main/kotlin/viewModels/MainViewModel.kt:257-259 | the selected goal is set; every other field of the view model is unchanged |
| MainViewModels.MainViewModel.RemoveActiveGoal | src/main/kotlin/viewModels/MainViewModel.kt:261-263 | the selected goal is cleared; every other field of the view model is unchanged |
| MainViewModels.MainViewModel.SetActiveTransaction | src/main/kotlin/viewModels/MainViewModel.kt:277-279 | the selected transaction is set; every other field of the view model is unchanged |
| MainViewModels.MainViewModel.RemoveActiveTransaction | src/main/kotlin/viewModels/MainViewModel.kt:281-283 | the selected transaction is cleared; every other field of the view model is unchanged |
| MainViewModels.MainViewModel.SetUser | src/main/kotlin/viewModels/MainViewModel.kt:285-287 | the signed-in user is set; every other field of the view model is unchanged |
| MainViewModels.MainViewModel.UpdateUser | src/main/kotlin/viewModels/MainViewModel.kt:289-291 | the signed-in user is replaced; every other field of the view model is unchanged |
| MainViewModels.MainViewModel.SetDefaultCurrency | src/main/kotlin/viewModels/MainViewModel.kt:293-295 | the default currency is set; every other field of the view model is unchanged |
| MainViewModels.MainViewModel.GetAccountsForEmail | src/main/kotlin/viewModels/MainViewModel.kt:326-336 | a rejected address fails with "Invalid Email Address"; otherwise the generated accounts |
| MainViewModels.MainViewModel.GetGoalsForEmail | src/main/kotlin/viewModels/MainViewModel.kt:338-349 | a rejected address fails with "Invalid Email Address"; otherwise the generated goals |
| SignupViewModels.Collect | src/main/kotlin/viewModels/SignupViewModel.kt:67-79 | one entry per failed test, each under its own key with its own message |
| SignupViewModels.SignupErrors | src/main/kotlin/viewModels/SignupViewModel.kt:66-83 | "name", "email", "password", "confirmPassword" and "terms" are each present exactly when their check fails |
| SignupViewModels.NoErrorsIffValid | src/main/kotlin/viewModels/SignupViewModel.kt:81-82 | the map is empty exactly when every check passes |
| SignupViewModels.SignupViewModel.constructor | src/main/kotlin/viewModels/SignupViewModel.kt:9-34 | empty fields, terms not accepted, no messages |
| SignupViewModels.SignupViewModel.UpdateName | src/main/kotlin/viewModels/SignupViewModel.kt:36-38 | only the name changes; the messages and the error map are unchanged |
| SignupViewModels.SignupViewModel.UpdateEmail | src/main/kotlin/viewModels/SignupViewModel.kt:40-42 | only the email changes; the messages and the error map are unchanged |
| SignupViewModels.SignupViewModel.UpdatePassword | src/main/kotlin/viewModels/SignupViewModel.kt:44-46 | only the password changes; the messages and the error map are unchanged |
| SignupViewModels.SignupViewModel.UpdateRePassword | src/main/kotlin/viewModels/SignupViewModel.kt:48-50 | only the repeated password changes; the messages and the error map are unchanged |
| SignupViewModels.SignupViewModel.UpdateTermsAccepted | src/main/kotlin/viewModels/SignupViewModel.kt:52-54 | only the terms flag changes; the messages and the error map are unchanged |
| SignupViewModels.SignupViewModel.ValidateForm | src/main/kotlin/viewModels/SignupViewModel.kt:66-83 | the error map is replaced by the form's errors; true exactly when the form is valid |
| SignupViewModels.SignupViewModel.Signup | src/main/kotlin/viewModels/SignupViewModel.kt:85-107 | the error map becomes the form's errors; an invalid form touches no status field and creates no user; a valid one ends not loading, with the success message and the new user |
| LoginViewModels.LoginViewModel.constructor | src/main/kotlin/viewModels/LoginViewModel.kt:9-25 | empty fields and no messages |
| LoginViewModels.LoginViewModel.UpdateEmail | src/main/kotlin/viewModels/LoginViewModel.kt:27-29 | only the email changes; the messages and the error map are unchanged |
| LoginViewModels.LoginViewModel.UpdatePassword | src/main/kotlin/viewModels/LoginViewModel.kt:31-33 | only the password changes; the messages and the error map are unchanged |
| LoginViewModels.LoginErrors | src/main/kotlin/viewModels/LoginViewModel.kt:40-48 | "email" is present exactly when the address is rejected and "password" exactly when it is empty, both with "Invalid email address", and no other key |
| LoginViewModels.NoErrorsIffValid | src/main/kotlin/viewModels/LoginViewModel.kt:40-48 | the map is empty exactly when the address is accepted and the password is not empty |
| LoginViewModels.LoginViewModel.ValidateForm | src/main/kotlin/viewModels/LoginViewModel.kt:40-48 | the error map becomes `LoginErrors` of the fields; true exactly when that map is empty, which is when the form is valid; the fields are unchanged |
| LoginViewModels.LoginViewModel.Login | src/main/kotlin/viewModels/LoginViewModel.kt:50-66 | the error map becomes `LoginErrors` of the fields; an invalid form touches no status field and signs nobody in; any valid address with any non-empty password signs in, with name "" |
| ProfileScreens.Collect | src/main/kotlin/ui/screens/profile.kt:50-62 | where two `put`s share a key, the later one wins when its test holds |
| ProfileScreens.ProfileErrors | src/main/kotlin/ui/screens/profile.kt:49-62 | "incorrect" whenever the current password differs from the stored one, "required" only when both are empty; the new password shows only the rule's message; a mismatch overrides "required" |
| ProfileScreens.NoErrorsIffValid | src/main/kotlin/ui/screens/profile.kt:49-65 | the map is empty exactly when the current password is right and not empty and the new password is valid and confirmed, whatever the switches |
| ProfileScreens.ProfileScreen.constructor | src/main/kotlin/ui/screens/profile.kt:24-41 | the user's name and email, empty password fields, both switches off |
| ProfileScreens.ProfileScreen.ValidateForm | src/main/kotlin/ui/screens/profile.kt:63-65 | the error map is cleared and refilled with the form's errors against the current user's stored password; true exactly when the form is valid |
| ProfileScreens.ProfileScreen.Save | src/main/kotlin/ui/screens/profile.kt:263-284 | checked against the view model's current user: a valid form replaces that user's name, email and password, changes no other field of the view model and resets the form; an invalid one changes only the error map |
| ProfileScreens.ProfileScreen.Commit | src/main/kotlin/ui/screens/profile.kt:267-283 | the current user is updated in the view model, whose other fields are unchanged; the success message, both switches off and empty password fields |
| ProfileScreens.SecondSaveUsesNewPassword | src/main/kotlin/ui/screens/profile.kt:24-25 | after a save, the next check of the current password is against the new password, since the screen re-reads the user |
| AccountForms.AccountErrors | src/main/kotlin/ui/screens/create_account.kt:47-57 | a blank holder, number or bank name sets its key; no digit gives "Invalid amount"; only zeros gives "Must be positive amount" |
| AccountForms.NoErrorsIffValid | src/main/kotlin/ui/screens/create_account.kt:59-60 | the map is empty exactly when every check passes |
| AccountForms.CreateAccount | src/main/kotlin/ui/screens/create_account.kt:38-45 | the typed fields; a balance that does not parse is 0.0, and none is negative; the currency reads back as chosen |
| AccountForms.ValidFormCreatesFundedAccount | src/main/kotlin/ui/screens/create_account.kt:38-60 | an account made from a valid form has a positive balance |
| AccountForms.ZeroBalanceIsNotPositive | src/main/kotlin/ui/screens/create_account.kt:55-56 | "0.00" parses but is refused as not positive |
| AccountForms.DotBalanceIsInvalid | src/main/kotlin/ui/screens/create_account.kt:55-57 | "." is refused as an invalid amount |
| AccountForms.AddBankAccountForm.constructor | src/main/kotlin/ui/screens/create_account.kt:28-37 | empty fields and the default currency |
| AccountForms.AddBankAccountForm.EditBalance | src/main/kotlin/ui/screens/create_account.kt:108-110 | the edit is kept exactly when it is digits with one dot at most; otherwise the field is unchanged |
| AccountForms.AddBankAccountForm.ValidateForm | src/main/kotlin/ui/screens/create_account.kt:47-61 | the error map is replaced by the form's errors; true exactly when the form is valid |
| SavingForms.SavedText | src/main/kotlin/ui/screens/create_saving.kt:59 | an empty saved amount reads as "0", and the text stays in the filter's language |
| SavingForms.Collect | src/main/kotlin/ui/screens/create_saving.kt:50-61 | each test sets its own key, with the messages of both branches of `?.let ?: run` |
| SavingForms.AmountPuts | src/main/kotlin/ui/screens/create_saving.kt:55-61 | the two amount checks set only their own keys |
| SavingForms.GoalErrors | src/main/kotlin/ui/screens/create_saving.kt:49-62 | blank names set their keys; the target needs a digit and a non-zero digit; a saved amount fails only when it is not empty and has no digit; "Cannot be negative" never appears |
| SavingForms.NoErrorsIffValid | src/main/kotlin/ui/screens/create_saving.kt:63-64 | the map is empty exactly when every check passes |
| SavingForms.CreateSavingsGoal | src/main/kotlin/ui/screens/create_saving.kt:40-47 | the typed names; both amounts fall back to 0.0, are never negative and are positive exactly when they hold a non-zero digit; the currency reads back as chosen |
| SavingForms.ValidFormCreatesPositiveTarget | src/main/kotlin/ui/screens/create_saving.kt:40-64 | a goal made from a valid form has a positive target |
| SavingForms.AddSavingsGoalForm.constructor | src/main/kotlin/ui/screens/create_saving.kt:29-39 | empty fields, the default currency and the first account's number, which must exist |
| SavingForms.AddSavingsGoalForm.EditTargetAmount | src/main/kotlin/ui/screens/create_saving.kt:110-112 | the edit is kept exactly when it matches the decimal expression |
| SavingForms.AddSavingsGoalForm.EditSavedAmount | src/main/kotlin/ui/screens/create_saving.kt:121-123 | the edit is kept exactly when it matches the decimal expression |
| SavingForms.AddSavingsGoalForm.ValidateForm | src/main/kotlin/ui/screens/create_saving.kt:49-65 | the error map is replaced by the form's errors; true exactly when the form is valid |
| TransactionForms.NameTests | src/main/kotlin/ui/screens/create_transaction.kt:80-89 | "transfer" is in the four TRANSFER types' names, "goal" in the four goal types' names, "to" only in TRANSFER_OUT_TO and TRANSFER_GOAL_OUT_TO |
| TransactionForms.InputErrors | src/main/kotlin/ui/screens/create_transaction.kt:75-91 | each key is present exactly when its check applies to the type and fails, with its message |
| TransactionForms.Collect | src/main/kotlin/ui/screens/create_transaction.kt:76-91 | the nested `put`s: each key depends only on its own tests |
| TransactionForms.AccountPuts | src/main/kotlin/ui/screens/create_transaction.kt:78-82 | the amount, account and target account entries |
| TransactionForms.GoalAndRecipientPuts | src/main/kotlin/ui/screens/create_transaction.kt:83-91 | the goal, target goal and recipient entries, leaving the earlier keys alone |
| TransactionForms.NoErrorsIffValid | src/main/kotlin/ui/screens/create_transaction.kt:92-93 | the map is empty exactly when every check that applies passes |
| TransactionForms.CreateTransaction | src/main/kotlin/ui/screens/create_transaction.kt:96-105 | the amount is the decimal the text denotes and fails exactly when it does not parse; id "", the given time, the chosen type's name and currency code, and the selections and recipient copied |
| TransactionForms.TwoDotsPassValidationButDoNotParse | src/main/kotlin/ui/screens/create_transaction.kt:78-99 | "1.2.3" passes the amount check, yet `toDouble` refuses it |
| TransactionForms.FirstOther | src/main/kotlin/ui/screens/create_transaction.kt:40-48 | the first element different from the selection, null exactly when there is none |
| TransactionForms.AddTransactionForm.constructor | src/main/kotlin/ui/screens/create_transaction.kt:34-54 | DEPOSIT, an empty amount, the first account and goal, and as targets the first others |
| TransactionForms.AddTransactionForm.EditAmount | src/main/kotlin/ui/screens/create_transaction.kt:145 | the field becomes the filtered edit, which keeps every digit and dot in order (see KeepDigitsAndDotsAppend); the other inputs are unchanged |
| TransactionForms.AddTransactionForm.ValidateInputs | src/main/kotlin/ui/screens/create_transaction.kt:75-94 | the error map is replaced by the input's errors; true exactly when the input is valid |
| ViewModelStores.ClassNameIdentifies | src/main/kotlin/viewModels/ViewModelStore.kt:12 | distinct classes have distinct default keys |
| ViewModelStores.BaseViewModel.Clear | src/main/kotlin/viewModels/MyBaseViewModel.kt:34-37 | the scope is cancelled |
| ViewModelStores.ViewModelStore.GetViewModel | src/main/kotlin/viewModels/ViewModelStore.kt:12-16 | a present key returns what is stored (failing if its class differs) and keeps the map; an absent key stores and returns one new instance, and the map grows by one |
| ViewModelStores.ViewModelStore.GetDefaultViewModel | src/main/kotlin/viewModels/ViewModelStore.kt:12-16 | keyed by class name, so a second call finds the first call's instance |
| ViewModelStores.ViewModelStore.Clear | src/main/kotlin/viewModels/ViewModelStore.kt:21-24 | every stored view model is cleared, then the map is empty |

## Left out

- Coroutines. `launch`, `delay`, the dispatcher and cancellation are left out, and each operation is one synchronous step. Races between concurrent `addTransaction` calls are not modelled.
- `onResult` and `onSuccess` callbacks are return values. The exception object is a `Ledger.Fault`, and its message is not kept.
- The data simulator is left out: `refreshData`, `generateData` and the `addGenerated*` methods. `getAccountsForEmail` and `getGoalsForEmail` take the generated lists as a parameter. `loadingStates` is never updated by any modelled operation.
- The error logger and the preferences' `flush` and backing store are left out. The preferences node is an in-memory map.
- Floating point is left out. Amounts are exact reals, and `toDoubleOrNull`/`toDouble` are modelled only on text the input filters admit. `formatAmount`, `formatDate` and the other formatting methods are left out.
- `LocalDate.now()` and `LocalDateTime.now()` are parameters (`today`, `now`).
- `Char.isDigit` is ASCII only, so Unicode digits the filter would also keep are not modelled. Case folding in `contains(_, true)` is ASCII only, which is exact on the enum names it is applied to.
- GetBoolean: `equalsIgnoreCase` is modelled with ASCII case folding. Java also folds U+017F 'ſ' onto 's' and U+212A (Kelvin sign) onto 'k', so stored text such as "falſe" reads as false in the source but as the default in the model.
- MainViewModels.MainViewModel.StepInPlace: the DEPOSIT objects are values in a sequence. The order of updates is kept, as is what a failure leaves behind. Aliasing — the same account object also held by `activeAccount` or another screen — is not modelled.
- The colour tables, the Compose UI, `LaunchedEffect` blocks and derived states are left out. A scheme's colour provider stands for the palette it selects (`AppColor.Palette`). The create-transaction form's targets are computed once, in its constructor.
- The screens' button flows are left out: Create/Submit with its loading flag and navigation, and Cancel. Only the profile's Save is modelled. The account and goal dialogs' `createAccount()`/`createSavingsGoal()` are modelled; the call into `addAccount`/`addSavingsGoal` is not.
- `MyBaseViewModel.onCleared` is empty in the base class and is not modelled per subclass. `ViewModelStore.clear` visits the values in an unspecified order, not the map's insertion order.
- The declaration of `TransactionType` is not part of this model. Its eight constants come from the exhaustive `when` in src/main/kotlin/viewModels/MainViewModel.kt:93-220.
- The `!!` on the signed-in user and its name and email, and `accounts[0]` in the goal form, throw in the source. They are modelled as preconditions: `ProfileScreens.ProfileScreen.constructor` requires a user with a name and an email, `ProfileScreens.ProfileScreen.Save` requires a user, and `SavingForms.AddSavingsGoalForm.constructor` requires at least one account.
- The profile screen re-reads the view model's user at each operation, as a recomposition does. Its name and email fields are kept as first captured (`remember`), so a user changed elsewhere does not refill them. The Cancel button is not modelled.
- `ProfileScreens.ProfileScreen` does not model the edit and password switches' own toggles. Only their values and Save's reset of them are modelled.
