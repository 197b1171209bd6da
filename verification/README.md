# fin-api ledger, modelled in Dafny

fin-api is a small in-memory bank-account service. A process-wide array of customers is
keyed by `cpf`, the Brazilian tax id. Each customer owns a statement: an append-only list of
credit and debit operations. The balance is a fold over that statement. The handlers open,
read, rename and delete accounts, deposit, withdraw (refused when the balance does not cover
the amount), and list the statement, whole or for one calendar day.

The model has four modules:

- `Wrappers` (`wrappers.dfy`): `Option`, `Result` and `Outcome`.
- `Ledger` (`ledger.dfy`): the pure part. It holds operations, the balance fold
  `Balance`, an independent credits-minus-debits reference, and the date filter `OnDate`.
  It also models `getBalance` as written (`BalanceAsWritten`).
- `Accounts` (`accounts.dfy`): customers and the cpf lookup (`FindIndex`, the `find` of the
  middleware). The class `Registry` holds the `customers` sequence. Its methods are the
  request handlers. Each method takes the header and body values it reads and returns the
  outcome its response reports. The mutating handlers change `customers` in place and keep
  two invariants: cpfs stay unique (`Valid`), and no balance goes negative (`Solvent`).
  Deposit keeps `Solvent` only for a non-negative amount.
- `Scenarios` (`scenarios.dfy`): client methods that drive a `Registry` through its
  contracts. One is the open/deposit/withdraw walk-through. The other two show the delete
  defect and its correction.

Timestamps are `Instant(day, timeOfDay)`. The day is the calendar day in the service's local
time zone, which is what `toDateString` keeps. The date query is `Option<int>`; `None` stands
for a query that does not parse as a date.

The model follows what the code does, including where it differs from the evident design:
- An unparseable date gives an empty list, not an error. `new Date` yields an invalid date,
  and its date string matches no operation.
- Delete removes the first customer, not the looked-up one (see Findings).
- Amounts are not validated. Zero and negative deposits and withdrawals are accepted.

## Model

| member | source | states |
|---|---|---|
| `Ledger.BalanceAppend` | src/index.js:27-33 | The empty statement has balance 0. Appending a credit raises the balance by its amount; appending a debit lowers it by its amount. |
| `Ledger.BalanceIsCreditsMinusDebits` | src/index.js:27-33 | The balance equals the total of the credits minus the total of the debits. |
| `Ledger.GuardedDebitKeepsBalanceNonNegative` | src/index.js:124-136 | When the balance is not below the amount, appending the debit leaves balance minus amount, which is non-negative. |
| `Ledger.BalanceAsWrittenNeverReturns` | src/index.js:26-36 | As written, `getBalance` throws a ReferenceError for every statement and never returns the balance. |
| `Ledger.OnDate` | src/index.js:97-99 | The filtered statement is no longer than the statement, and every element of it falls on the queried day. |
| `Ledger.OnDateKeepsExactlyThatDay` | src/index.js:97-99 | The result is a subsequence of the statement. Each operation on the queried day occurs exactly as often as in the statement; every other operation is dropped. |
| `Ledger.OnDateAppend` | src/index.js:97-99 | Filtering a concatenation is concatenating the filtered parts, so later operations come after earlier ones. |
| `Ledger.OnDateIdempotent` | src/index.js:97-99 | Filtering an already filtered statement by the same date changes nothing. |
| `Ledger.OnDateAllOrNothing` | src/index.js:95-99 | A statement entirely on the queried day comes back whole. One with nothing on that day comes back empty, as does every statement under an unparseable date. |
| `Ledger.OnDateExample` | src/index.js:95-99 | Operations at 09:00 and 23:50 on one day both match that day, and 00:01 the next day does not. The matching part moves the balance by +70. |
| `Accounts.FindIndex` | src/index.js:14-18 | The lookup fails exactly when no customer has the cpf. Otherwise it gives the position of the first customer with that cpf. |
| `Accounts.FoundIsOnlyMatch` | src/index.js:14 | With unique cpfs, the lookup finds the one customer that has the cpf. |
| `Accounts.RemoveAt` | src/index.js:77 | `splice(k, 1)` drops the element at k. Elements before it stay put and elements after it move down by one. |
| `Accounts.RemoveAtClearsCpf` | src/index.js:77 | Removing a customer keeps cpfs unique. With unique cpfs, the removed customer's cpf is no longer registered. |
| `Accounts.Registry.constructor` | src/index.js:8 | The registry starts empty and valid. |
| `Accounts.Registry.Create` | src/index.js:41-54 | Fails with CustomerAlreadyExists exactly when the cpf is taken, leaving the registry unchanged. Otherwise it appends one customer at the end with the given id, name, cpf and an empty statement. Keeps cpfs unique and balances non-negative. |
| `Accounts.Registry.Account` | src/index.js:59-63 | Fails with CustomerNotFound exactly when no customer has the cpf. Otherwise it returns the first customer with that cpf. |
| `Accounts.Registry.Rename` | src/index.js:65-72 | An unknown cpf fails with CustomerNotFound and changes nothing. Otherwise only that customer's name changes: its id, cpf and statement, and all other customers, stay the same. |
| `Accounts.Registry.Delete` | src/index.js:74-83 | An unknown cpf fails with CustomerNotFound and changes nothing. Otherwise the registry loses its first element: one customer fewer, the rest in order. |
| `Accounts.Registry.DeleteByCpf` | src/index.js:74-83 | Intended delete: removes the looked-up customer and keeps the rest in order. Afterwards the cpf is not registered. |
| `Accounts.Registry.Statement` | src/index.js:85-89 | Fails with CustomerNotFound exactly when the cpf is unknown. Otherwise it returns that customer's whole statement. |
| `Accounts.Registry.StatementByDate` | src/index.js:91-102 | Fails with CustomerNotFound exactly when the cpf is unknown. Otherwise it returns the customer's statement filtered to the queried day, or an empty list for an unparseable date. |
| `Accounts.Registry.Deposit` | src/index.js:104-118 | An unknown cpf fails and changes nothing. Otherwise exactly one credit (amount, now, description) is appended to that customer's statement. The balance rises by the amount; everything else is unchanged. |
| `Accounts.Registry.Withdraw` | src/index.js:120-139 | An unknown cpf fails. A balance below the amount fails with InsufficientFunds and changes nothing. Otherwise exactly one debit without description is appended, and the new balance is old minus amount, never negative. Keeps every balance non-negative. |
| `Accounts.Registry.BalanceOf` | src/index.js:141-147 | Fails with CustomerNotFound exactly when the cpf is unknown. Otherwise it returns the balance of that customer's statement. |
| `Scenarios.OpenDepositWithdraw` | src/index.js:104-147 | Open "111", deposit 500 and 200, withdraw 300: the balance is 400. Withdrawing 1000 then fails with InsufficientFunds and the balance stays 400. |
| `Scenarios.SplicedDeleteRemovesFirstCustomer` | src/index.js:77 | With "1" and "2" registered, deleting "2" as written succeeds. Afterwards "2" is still found and "1" is gone. |
| `Scenarios.DeleteByCpfRemovesTarget` | src/index.js:74-83 | With the corrected delete on the same registry, "2" is gone and "1" is still found. |

## Left out

- HTTP plumbing: Express routing, JSON bodies, headers, status codes and response payloads (src/index.js:1-6, 149), including the `customers` dump in the delete response (src/index.js:79-82). Handlers return an `Outcome`/`Result` instead.
- `uuidv4()` (src/index.js:50) is a foreign library. The id is a parameter of `Create`, and no uniqueness of ids is assumed or enforced.
- JS `Date` parsing, `new Date()` clock reads, `toDateString` and time-zone rules (src/index.js:95, 98, 111, 133). The clock is the `now` parameter. Dates are `Instant`s whose calendar day is given, and the query is a day, or `None` when it does not parse.
- JS numbers and loose typing. Amounts are unbounded integers, not floating point. An `undefined` or non-numeric amount, or a cpf that is not a string, is not modelled.
- Object aliasing. The handlers mutate the customer object that `find` returned, and so the array element. The model updates the element of `customers` at the found position, which has the same effect.
- Concurrency. Node runs the synchronous handlers one at a time, so nothing interleaves.

## Findings

| source | as written | input that shows it | evidently intended | confidence | as-written member | corrected member |
|---|---|---|---|---|---|---|
| src/index.js:77 | `customers.splice(customer, 1)` passes the customer record as the start index. It converts to NaN and then to 0, so the first customer is always removed. | Register cpfs "1" then "2" and delete "2". Customer "1" is removed, and "2" is still found. | Remove the customer that the cpf header names. | high; not executed | `Accounts.Registry.Delete`, `Scenarios.SplicedDeleteRemovesFirstCustomer` | `Accounts.Registry.DeleteByCpf`, `Scenarios.DeleteByCpfRemovesTarget` |
| src/index.js:33 | After the `reduce`, `return acc + operation.amount` names variables that are not in scope. `getBalance` throws a ReferenceError, so `/withdraw` and `/balance` fail on every request. | Any statement, including the empty one. | Return the result of the reduce (line 35). | high; not executed | `Ledger.BalanceAsWritten`, `Ledger.BalanceAsWrittenNeverReturns` | `Ledger.Balance`, `Ledger.BalanceIsCreditsMinusDebits` |

The rest of the model uses the corrected balance: `Withdraw` and `BalanceOf` compute `Ledger.Balance`.
