# Cash machine: account, card and cash-machine services

A Dafny model of the transactional core of a bank and cash-machine simulation.
The model covers three small sequential services.

- **Account service** (`Accounts`). It keeps a balance per account identifier in the account store.
  - `createAccount` hands the store an unsaved account (identifier 0) with the given amount.
  - `putMoney` adds to a balance.
  - `getMoney` subtracts from a balance. It fails with "Not enough money" only when the amount is strictly greater than the balance.
  - `getAccount` and `checkBalance` read the store.
- **Card service** (`Cards`). Cards live in a card store keyed by card number. Each card carries the account it draws on and its stored PIN code.
  - Every balance operation first looks the card up ("No card found") and compares the PIN's digest with the stored PIN code ("Pincode is incorrect").
  - Only then does it make one call on the account service, addressed to the card's `accountId`.
  - `createCard` hands the number, account and PIN to the card store and returns the card the store creates.
  - `cnangePin` (so spelled in the source; `ChangePin` here) saves the card with the digest of the new PIN and answers true.
- **Cash-machine service** (`Machine`).
  - `getMoney` withdraws through the card service, then takes the notes out of the machine's money box. If the box cannot hand out the sum, the call fails and the account stays debited.
  - `putMoney` checks the card's balance, passes the note counts to the money box in the order (100, 500, 1000, 5000), then credits their value through the card service. The note list is ordered [5000, 1000, 500, 100].
  - `checkBalance` and `changePin` hand the call to the card service unchanged.

The implementation classes are not part of this model. Their behaviour is taken from the three test classes that fix it.

Each service is a class whose methods update its store.
- Stores are maps, reassigned by the methods.
- Ghost call logs record what a collaborator receives. `AccountService.saved` and `CardService.saved` hold what is handed to the store's save operation. `AccountService.requests` holds the putMoney/getMoney calls. `MoneyBoxService.calls` holds the money-box calls.
- Each method is proved against a pure function that gives its meaning:
  - `Accounts.Perform` gives one ledger call and `Accounts.Run` gives a sequence of them. `Accounts.RunThenPerform` ties the two: a service's store after a run of calls is `Run` of the store it started from.
  - `Cards.Authenticate`, `Cards.Serve` and `Cards.Sent` give a card operation.
  - `Cards.Repinned` gives a PIN change.
  - `Notes.NotesValue` gives the value of a deposit.
- Lemmas about these functions state the properties the tests fix. Examples: refusal exactly when the amount exceeds the balance, deposit-then-withdraw round trip, balances never negative over any run of calls in which no deposit is of a negative amount, no effect without authentication, the withdrawal going to `accountId`, and the new PIN accepted while the old one is rejected.

Two readings of the tests shape the model:
- The cash-machine `putMoney` test stubs the card service's `getBalance` (CashMachineServiceTest.java:92). Under the Mockito JUnit extension's strict stubbing, an unused stub fails the test, so `putMoney` does call `getBalance`. The test does not fix when. The model calls it first, before the box's `putMoney`, so a deposit with a bad card or PIN puts nothing into the box. That order is a modelling choice. Under it, `Machine.CheckedDepositCredited` shows that notes the box accepts are always credited.
- `createCard` hands the card store the PIN exactly as given, and returns the card the store creates (CardServiceTest.java:49-58). The tests do not show the store, so the model takes the created card as a parameter (`stored`). It logs the arguments handed to the store in `CardService.created`. A store might keep the PIN's digest instead; a store that kept the PIN itself would create a card whose PIN never authenticates. The model makes no claim either way.

Files: `outcomes.dfy` (failures and `Result`), `accounts.dfy`, `cards.dfy`, `notes.dfy` (note arithmetic, `intValue`), `machine.dfy`. Each module also has a scenario method that replays its test class on the model.

## Model

| member | source | states |
|---|---|---|
| Outcomes.Message | src/test/java/otus/study/cashmachine/bank/service/CardServiceTest.java:108-165 | each failure's message: "Not enough money" (AccountServiceTest.java:98), "No card found" (:115) and "Pincode is incorrect" (:164), and each message names exactly one failure |
| Accounts.Perform | src/test/java/otus/study/cashmachine/bank/service/AccountServiceTest.java:60-100 | a deposit or withdrawal changes only the named account. It replies with that account's new stored balance. A failure leaves the store untouched, and an unknown account is AccountNotFound. A successful withdrawal never leaves a negative balance |
| Accounts.BalanceOf | src/test/java/otus/study/cashmachine/bank/service/AccountServiceTest.java:114-122 | the balance query succeeds exactly when the account is in the store, with its stored balance, and fails with AccountNotFound otherwise |
| Accounts.Run | src/test/java/otus/study/cashmachine/bank/service/AccountServiceTest.java:60-100 | no sequence of deposits and withdrawals adds or removes an account |
| Accounts.WithdrawRefusedIff | src/test/java/otus/study/cashmachine/bank/service/AccountServiceTest.java:73-100 | a withdrawal fails with NotEnoughMoney exactly when the amount exceeds the balance, and succeeds exactly when it does not |
| Accounts.WithdrawWholeBalance | src/test/java/otus/study/cashmachine/bank/service/AccountServiceTest.java:73-84 | withdrawing exactly the balance succeeds and leaves zero |
| Accounts.DepositAdds | src/test/java/otus/study/cashmachine/bank/service/AccountServiceTest.java:60-70 | a deposit on a stored account, whatever its balance, stores and returns the balance plus the amount |
| Accounts.WithdrawSubtracts | src/test/java/otus/study/cashmachine/bank/service/AccountServiceTest.java:73-84 | a withdrawal of no more than the balance stores and returns the balance minus the amount |
| Accounts.DepositThenWithdraw | src/test/java/otus/study/cashmachine/bank/service/AccountServiceTest.java:60-84 | on a non-negative balance, depositing an amount and withdrawing it again restores the store and returns the original balance |
| Accounts.PerformKeepsNonNegative | src/test/java/otus/study/cashmachine/bank/service/AccountServiceTest.java:73-100 | one call keeps every balance non-negative when no negative amount is deposited |
| Accounts.RunKeepsNonNegative | src/test/java/otus/study/cashmachine/bank/service/AccountServiceTest.java:73-100 | any sequence of calls keeps every balance non-negative when no negative amount is deposited |
| Accounts.RunLeavesUntouched | src/test/java/otus/study/cashmachine/bank/service/AccountServiceTest.java:60-84 | an account that no call names keeps its balance over any sequence of calls |
| Accounts.RunThenPerform | src/test/java/otus/study/cashmachine/bank/service/AccountServiceTest.java:60-100 | running one more call after a sequence is performing that call on the store the sequence left, so the store after any run of service calls is Run of the starting store |
| Accounts.AccountService.CreateAccount | src/test/java/otus/study/cashmachine/bank/service/AccountServiceTest.java:33-57 | hands the store exactly one account, with id 0 and the given amount. The store files it under its assigned id with that amount. Nothing else changes |
| Accounts.AccountService.PutMoney | src/test/java/otus/study/cashmachine/bank/service/AccountServiceTest.java:60-70 | the new store and the reply are those of Perform for the deposit, so by DepositAdds the reply is the stored balance plus the amount. The call is logged once |
| Accounts.AccountService.GetMoney | src/test/java/otus/study/cashmachine/bank/service/AccountServiceTest.java:73-100 | the new store and the reply are those of Perform for the withdrawal: balance minus amount, or NotEnoughMoney with the store unchanged. The call is logged once |
| Accounts.AccountService.GetAccount | src/test/java/otus/study/cashmachine/bank/service/AccountServiceTest.java:103-111 | returns the stored account for the id, or AccountNotFound |
| Accounts.AccountService.CheckBalance | src/test/java/otus/study/cashmachine/bank/service/AccountServiceTest.java:114-122 | returns the stored balance for the id without changing it, or AccountNotFound |
| Cards.Authenticate | src/test/java/otus/study/cashmachine/bank/service/CardServiceTest.java:108-165 | authentication succeeds exactly when the number is in the store and the PIN's digest equals the stored PIN code, and then yields the stored card. An unknown number gives NoCardFound and a mismatching digest gives PincodeIncorrect |
| Cards.Sent | src/test/java/otus/study/cashmachine/bank/service/CardServiceTest.java:71-105 | a card operation makes an account-service call only when the card authenticates. It then makes exactly one for a deposit (putMoney) or a withdrawal (getMoney) and none for a balance query. That call goes to the card's accountId with the requested amount |
| Cards.Serve | src/test/java/otus/study/cashmachine/bank/service/CardServiceTest.java:61-117 | nothing succeeds and nothing changes unless the card is found and the PIN's digest matches. An unknown card gives NoCardFound and a wrong PIN gives PincodeIncorrect, both with the store unchanged. An authenticated balance query replies with the balance of the card's account |
| Cards.Repinned | src/test/java/otus/study/cashmachine/bank/service/CardServiceTest.java:120-154 | a PIN change succeeds exactly when the old PIN authenticates. It then stores the card with the same id, number and accountId and the digest of the new PIN, and leaves every other card as it was. Otherwise it fails with NoCardFound or PincodeIncorrect |
| Cards.UnknownCardRefused | src/test/java/otus/study/cashmachine/bank/service/CardServiceTest.java:108-117 | every operation on an unknown card number, including a PIN change, fails with NoCardFound and makes no account-service call |
| Cards.WrongPinRefused | src/test/java/otus/study/cashmachine/bank/service/CardServiceTest.java:157-165 | every operation with a PIN whose digest differs from the stored one fails with PincodeIncorrect and makes no account-service call |
| Cards.WithdrawalUsesAccountId | src/test/java/otus/study/cashmachine/bank/service/CardServiceTest.java:71-86 | an authenticated withdrawal is exactly one getMoney call, on the card's accountId, with the requested amount |
| Cards.BalanceUsesAccountId | src/test/java/otus/study/cashmachine/bank/service/CardServiceTest.java:61-68 | an authenticated balance query makes no account-service call and replies with the balance of the card's accountId, not of the card's id |
| Cards.DepositUsesAccountId | src/test/java/otus/study/cashmachine/bank/service/CardServiceTest.java:89-105 | an authenticated deposit is exactly one putMoney call, on the card's accountId, with the requested amount, and its reply is that call's reply |
| Cards.NewPinAccepted | src/test/java/otus/study/cashmachine/bank/service/CardServiceTest.java:120-142 | after a PIN change the new PIN authenticates the card |
| Cards.OldPinRejected | src/test/java/otus/study/cashmachine/bank/service/CardServiceTest.java:120-142 | after a change to a different PIN the old PIN is rejected, given an injective digest |
| Cards.CardService.CreateCard | src/test/java/otus/study/cashmachine/bank/service/CardServiceTest.java:49-58 | hands the store's createCard exactly one request, with the given number, accountId and PIN unchanged, and returns the card the store created, which the store now holds under its number |
| Cards.CardService.GetBalance | src/test/java/otus/study/cashmachine/bank/service/CardServiceTest.java:61-68 | returns the balance of the card's linked account once the PIN's digest matches, and otherwise the authentication failure |
| Cards.CardService.GetMoney | src/test/java/otus/study/cashmachine/bank/service/CardServiceTest.java:71-86 | the ledger and the reply are those of Serve for the withdrawal. The account service receives exactly the calls Sent names |
| Cards.CardService.PutMoney | src/test/java/otus/study/cashmachine/bank/service/CardServiceTest.java:89-117 | the ledger and the reply are those of Serve for the deposit. The account service receives exactly the calls Sent names. The reply is the ledger's new balance |
| Cards.CardService.ChangePin | src/test/java/otus/study/cashmachine/bank/service/CardServiceTest.java:120-154 | on success, saves exactly one card, the one Repinned gives, and returns true. On failure it returns the error with the store and save log unchanged, and never false |
| Notes.Value | src/test/java/otus/study/cashmachine/machine/service/CashMachineServiceTest.java:88-90 | the value of non-negative counts of non-negative face values is non-negative |
| Notes.ValueOfFour | src/test/java/otus/study/cashmachine/machine/service/CashMachineServiceTest.java:88-90 | the value of four counts is the sum of count times face value |
| Notes.NotesValue | src/test/java/otus/study/cashmachine/machine/service/CashMachineServiceTest.java:88-90 | the note list [n5000, n1000, n500, n100] is worth 100·n100 + 500·n500 + 1000·n1000 + 5000·n5000, which is non-negative for non-negative counts |
| Notes.BoxCounts | src/test/java/otus/study/cashmachine/machine/service/CashMachineServiceTest.java:88-100 | the box receives four counts, and its count for each face value is the list's count for the same face value |
| Notes.BoxTakesCreditedValue | src/test/java/otus/study/cashmachine/machine/service/CashMachineServiceTest.java:88-101 | the counts the box receives, in the order (100, 500, 1000, 5000), are worth exactly what the deposit credits |
| Notes.IntValue | src/test/java/otus/study/cashmachine/machine/service/CashMachineServiceTest.java:69-75 | amount.intValue() is an int congruent to the amount modulo 2^32, and equal to it when the amount fits in an int |
| Machine.AcceptNotes | src/test/java/otus/study/cashmachine/machine/service/CashMachineServiceTest.java:98-99 | a deposit's box call carries the machine's box and the counts in the order (n100, n500, n1000, n5000) |
| Machine.CheckedDepositCredited | src/test/java/otus/study/cashmachine/machine/service/CashMachineServiceTest.java:92-102 | once the balance check succeeds, crediting the deposit cannot fail. The new balance is the old one plus the value of the notes the box took in |
| Machine.MoneyBoxService.GetMoney | src/test/java/otus/study/cashmachine/machine/service/CashMachineServiceTest.java:69-75 | returns the box's notes for the sum, or its failure, and logs one getMoney call |
| Machine.MoneyBoxService.PutMoney | src/test/java/otus/study/cashmachine/machine/service/CashMachineServiceTest.java:98-100 | logs one putMoney call with the box and the four counts |
| Machine.CashMachineService.GetMoney | src/test/java/otus/study/cashmachine/machine/service/CashMachineServiceTest.java:61-77 | debits through the card service exactly as Serve/Sent give for (card, pin, amount), with no credit. Only if that succeeds does it make one getMoney call on the machine's box for intValue(amount). It returns the box's notes unchanged, or the box's failure, in which case the debit stays committed |
| Machine.CashMachineService.PutMoney | src/test/java/otus/study/cashmachine/machine/service/CashMachineServiceTest.java:80-103 | after a successful balance check: one putMoney call on the box with (n100, n500, n1000, n5000), no getMoney call, one credit of NotesValue(notes) through the card service, and that credit's reply returned. After a failed check: the error and no effect |
| Machine.CashMachineService.CheckBalance | src/test/java/otus/study/cashmachine/machine/service/CashMachineServiceTest.java:106-116 | returns the card service's balance for (card, pin) unchanged |
| Machine.CashMachineService.ChangePin | src/test/java/otus/study/cashmachine/machine/service/CashMachineServiceTest.java:119-154 | forwards (card, oldPin, newPin) to the card service and returns its outcome as it is |

## Left out

- The implementation classes (`AccountServiceImpl`, `CardServiceImpl`, `CashMachineServiceImpl`, the money-box service) are not part of this model. The model's methods do what the tests fix and no more.
- PIN digest: SHA-1 with hex formatting (CardServiceTest.java:167-175) is a foreign cryptographic call. The card service holds the digest as a function `hash`. Where a lemma needs distinct PINs to have distinct digests, it says so with `Cards.Injective`.
- Money box: its note inventory and its dispensing algorithm are mocked in every test and not shown. `Machine.MoneyBox` is known only by identity. The notes the box hands out for a sum, or its failure `CannotDispense`, come from a function fixed when the money-box service is built. The model does not say how a box's note counts change, nor for which sums it cannot make change.
- Identifier generation and persistence belong to the stores, which are not shown. The stores are maps. The identifier a store assigns is a parameter (`assignedId`). `CreateAccount` requires the id to be unused and non-zero, which is what a store's id generator provides.
- Whether `putMoney`/`getMoney` of the account service call the store's `saveAccount` after changing the balance is not shown. The model updates the stored balance directly and records no save.
- Accounts.Perform: what the account service does for an identifier the store does not know is not shown. The model's `AccountNotFound` is its own choice, with no message. It applies to every member built on Perform or BalanceOf, listed below.
- Accounts.Perform: the tests do not show how negative amounts are treated. The model refuses none: it applies them as given, so a negative deposit lowers a balance and a negative withdrawal raises it. This is why `RunKeepsNonNegative` requires that no deposit be negative.
- Accounts.BalanceOf: `AccountNotFound` for an unknown identifier is the model's own choice, as for Perform.
- Accounts.AccountService.PutMoney: `AccountNotFound` for an unknown identifier is the model's own choice.
- Accounts.AccountService.GetMoney: `AccountNotFound` for an unknown identifier is the model's own choice.
- Accounts.AccountService.GetAccount: `AccountNotFound` for an unknown identifier is the model's own choice.
- Accounts.AccountService.CheckBalance: `AccountNotFound` for an unknown identifier is the model's own choice.
- Cards.Serve: a card whose account is not in the ledger gets the ledger's `AccountNotFound`, and so do the card service's GetBalance, GetMoney and PutMoney and the cash-machine operations built on them.
- Accounts.AccountService.requests records only the balance-changing calls. Reads (`getAccount`, `checkBalance`) are not logged, so the model does not capture "no other interaction" over reads. By its body, the card service's withdrawal makes no read.
- Cards.CardService.CreateCard: the card the store creates is a parameter, because the store is not shown. So the model does not say whether a created card holds the PIN's digest, nor that its PIN authenticates it.
- Cards.CardService.ChangePin: never answers false. A wrong or unknown card is an error. The implementation is not shown, so this is the model's choice.
- Machine.CashMachineService.GetMoney: whether the implementation refunds the debit when the box then fails is not shown. CashMachineServiceTest.java:74 rules out a credit only on the successful path. The model makes no refund, so the account stays debited.
- Machine.CashMachineService.PutMoney: requires a list of exactly four counts. What the source does with another length is not shown.
- Machine.CashMachineService.PutMoney: the tests show that `getBalance` is called, not when. Calling it before the box's `putMoney`, so that a bad card or PIN leaves the box untouched, is the model's choice.
- Notes.NotesValue: computed on unbounded integers, without Java `int` overflow of the products, because how the implementation sums the counts is not shown.
- `BigDecimal` amounts are whole numbers in every test, so amounts are `int`. Scale-sensitive `BigDecimal.equals` is not modelled.
- The account service handed to the cash-machine service's constructor is not used by any call the tests show, so the model does not hold it.
- Mockito (`@Mock`, `@Spy`, captors, `verify`, `doReturn`, `doAnswer`) becomes the ghost call logs and the pure functions above. `changePinWithAnswer` stubs `cnangePin` to answer false; the model's card service never answers false (see ChangePin above), so that answer has no counterpart here. The cash-machine service returns the card service's outcome as it is.
- Concurrency and locking of shared balances are not modelled. Every call is sequential.
