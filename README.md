# DollarsBank ledger core in Dafny

A model of the ledger engine of the DollarsBank ATM application: the
`customer_account` class (one account with a balance and an append-only log
of transaction records) and the `dollars_bank_atm` class (the list of
accounts and the transfer between two accounts).

- `account.dfy`, module `CustomerAccount`: the `Transaction` record, the
  `Outcome` of a `transaction` call (a record, JavaScript `null` for a refused
  overdraft, `0` for a zero amount) and the class `Account` with its fields
  (`email`, `name`, `accountId`, `pin`, `balance`, `transactions`). The
  decision `transaction` takes is the function `Apply`; the account
  invariant `Account.Valid()` says the log is chained from 0 (each record
  starts at the previous record's new balance and adds its amount), never
  negative, and that the balance is the last record's new balance. Lemmas show
  that the balance is then also the sum of all recorded amounts and that every
  call of `transaction` keeps the invariant.
- `atm.dfy`, module `DollarsBankAtm`: the class `Atm` holding `accounts` as a
  sequence of account references, `AddAccount`, and `Transfer`, which is
  proved all-or-nothing: it reports true exactly when the amount is positive
  and strictly below the source balance, and then both accounts have been
  updated; otherwise neither account changes. The case where source and
  destination are the same object is handled explicitly (the balance is
  unchanged and two records are appended).

Money is an `int` number of cents. Behaviour of the code worth knowing:
- A transfer of 0 reports false and records nothing: the debit
  `transaction(-0)` returns the falsy `0`, so the credit is never attempted.
- With fewer than five records `lastFiveTransactions` returns the whole log
  oldest-first; only with five or more is the order newest-first.
- `addAccount` performs no duplicate-email check, generates no identifier
  and stores the account in a list, not a map keyed by id; its arguments go to
  the account constructor by position (email, name, id, PIN, initial balance).
- A zero or negative initial balance does not fail construction: the account
  exists with balance 0 and an empty log.

## Model

| member | source | states |
|---|---|---|
| CustomerAccount.Apply | src/customer_account.js:35-63 | a positive amount is always recorded; a negative amount is refused exactly when the balance would drop below zero; zero does nothing; a record holds the old balance, the amount and old balance + amount; from a non-negative balance the result is never negative |
| CustomerAccount.ChainedRecordsAdd | src/customer_account.js:75-84 | in a well-formed log every record has newBalance == previousBalance + amount |
| CustomerAccount.NoRecordNegative | src/customer_account.js:44-56 | in a well-formed log no record starts or ends below zero, because every debit that would overdraw is refused |
| CustomerAccount.TotalIsClosing | src/customer_account.js:35-63 | in a well-formed log the sum of all recorded amounts equals the last record's new balance (0 for an empty log) |
| CustomerAccount.ApplyKeepsLedger | src/customer_account.js:35-63 | applying any amount to the balance a well-formed log ends on leaves the log well-formed and non-negative, with the balance equal to the new closing balance and to the sum of the amounts |
| CustomerAccount.Account.constructor | src/customer_account.js:14-22 | the account starts at 0 with an empty log; a positive initial balance gives exactly one record (0, initialBalance, initialBalance, "Initial balance."), any other gives none and balance 0; the invariant holds |
| CustomerAccount.Account.Transact | src/customer_account.js:35-63 | keeps the invariant; the result is `Apply` of the old balance and is truthy exactly for a credit or a debit that does not overdraw; a record moves the balance to its new balance and is appended; a refused or zero amount leaves the account unchanged; the balance is the sum of all recorded amounts |
| CustomerAccount.Account.RecordTransaction | src/customer_account.js:75-85 | appends and returns exactly one record holding the old balance, the amount and the current balance |
| CustomerAccount.Account.LastFiveTransactions | src/customer_account.js:93-111 | nothing for an empty log; with five or more records exactly the last five, newest first; with one to four the whole log in its own order |
| CustomerAccount.Account.AccountInfo | src/customer_account.js:117-123 | the summary is the account's name, email and id |
| CustomerAccount.AccountInfoHidesPin | src/customer_account.js:113-123 | the summary depends only on name, email and id, never on the PIN |
| DollarsBankAtm.Atm.constructor | src/dollars_bank_atm.js:5-7 | the ATM starts with no accounts |
| DollarsBankAtm.Atm.AddAccount | src/dollars_bank_atm.js:9-12 | keeps every held account valid; the list grows by exactly one fresh account at the end, earlier entries unchanged, no duplicate check; the arguments land positionally as email, name, id and PIN; the new account's balance and log follow the constructor |
| DollarsBankAtm.Atm.Transfer | src/dollars_bank_atm.js:14-35 | true exactly when 0 < amount < source balance; on false neither account changes; on true between distinct accounts the source loses and the destination gains `amount`, each gets one record with opposite-signed amounts and the messages "Transfer to <dest email>" / "Transfer from <source email>", and the sum of the two balances is kept; on true with the same account the balance is unchanged and both records are appended; both accounts keep the account invariant |
| DollarsBankAtm.TransferKeepsValid | src/dollars_bank_atm.js:14-35 | a change that keeps the two transfer accounts valid and touches nothing else keeps every account held by the ATM valid |

## Left out

- The transaction timestamp (`new Date()`): a clock reading, not modelled; records have no time field.
- Floating-point amounts and `parseFloat` string coercion: amounts are whole cents, so rounding and non-numeric inputs are not modelled.
- CustomerAccount.Account.LastFiveTransactions: with fewer than five records the source returns the account's own array, so a caller that mutates it changes the log; the model returns the log as a value and does not capture that aliasing.
- CustomerAccount.Account.RecordTransaction: the source returns the same object it pushes, so a caller could later mutate a logged record; records here are immutable values.
- The interactive prompt layer and the process entry point (console input and output) are not part of this model.
- Login, PIN update, deposit, withdraw, identifier generation, lookup by id, listing other accounts and the session pointer do not exist in the modelled code and are not modelled.
