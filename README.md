# FinAPI account ledger, modelled in Dafny

FinAPI is a small Express service that keeps bank accounts in memory. A global
`customers` array holds one record per customer, keyed by `cpf` (the Brazilian
tax identifier). Each record has a name, a generated `id` and a `statement`:
an append-only list of `credit` and `debit` operations. A middleware finds the
customer named in the `cpf` request header. The handlers then open an account,
deposit, withdraw (refused when the balance is too low), list the statement
(all of it, or one calendar day), rename the account and delete it. The balance
is never stored: `getBalance` folds the statement every time it is asked.

The model has three modules:

- `Wrappers` (`wrappers.dfy`) holds `Option`, `Result` and `Outcome`. They stand
  in for the handlers' error responses.
- `Ledger` (`ledger.dfy`) is pure. It defines the `Operation` datatype,
  `Balance` as the left fold of `getBalance`, and `OnDay`, the filter of the
  statement-by-date handler. It also holds the lemmas about them.
- `Accounts` (`accounts.dfy`) is imperative. `Customer` is a class: its `cpf`
  and `id` are constants, while `name` and `statement` are fields that
  `Rename`, `Deposit` and `Withdraw` update in place, as the handlers do through
  `req.customer`. `Directory` is a class whose `customers: seq<Customer>`
  field is reassigned by `Create` (the `push`) and `Delete` (the `splice`).
  `Directory.Lookup` is the middleware. Because a handler changes only the
  customer it was given (`modifies this`), no other account can change when
  one account is renamed, credited or debited. `WalkThrough` is a client
  method whose assertions, proved from the contracts alone, follow a sample
  session (open "111", deposit 100, withdraw 100, a refused withdraw of 1).

`src/index.js` is the earlier version of the service. Its lookup middleware and
create handler match those of `src/main.ts` line for line, so the same members
model both files. The rows below cite whichever copy the member is checked
against.

Representation choices:

- `amount` is an `int` in minor units.
- `created_at` is an `int` count of seconds on the server's local clock.
- A calendar day is `Day(t) = t / 86400`. With a positive divisor this is floor
  division, so instants before the epoch also land on the right day.
- The `date` query is an `Option<int>` day. `None` stands for a query that does
  not parse (`new Date("… 00:00")` is an Invalid Date). Its `toDateString()`
  never equals that of a real instant, so the filter then returns nothing.
- The code subtracts for any operation whose type is not `'credit'`. It only
  ever writes `'credit'` and `'debit'`, so `Kind` has just those two values.
- The code never checks the sign of an amount. `Deposit` takes any `int`, so
  a negative deposit lowers the balance.

## Model

| member | source | states |
|---|---|---|
| `Ledger.Apply` | src/main.ts:48-53 | the reducer: a credit adds its amount, any other kind subtracts it; no contract of its own, its effect is stated by `FoldAppend` (as `Effect`) and `FoldShift` |
| `Ledger.Fold` | src/main.ts:48-53 | `statement.reduce` as a left fold, first operation first; no contract of its own, specified by `FoldShift` and `FoldAppend` |
| `Ledger.Balance` | src/main.ts:47-56 | getBalance, the fold seeded with 0; no contract of its own, specified by `BalanceIsCreditsMinusDebits`, `BalanceAppend` and `RunningBalance` |
| `Ledger.FoldShift` | src/main.ts:47-56 | folding the reducer over a statement from any start value adds the statement's credits and subtracts its debits |
| `Ledger.BalanceIsCreditsMinusDebits` | src/main.ts:47-56 | the balance equals the sum of the credit amounts minus the sum of the debit amounts; an empty statement has balance 0 |
| `Ledger.FoldAppend` | src/main.ts:48-53 | folding over a statement with one more operation gives the old fold plus that operation's signed amount |
| `Ledger.BalanceAppend` | src/main.ts:48-53 | appending a credit raises the balance by exactly its amount; appending a debit lowers it by exactly its amount |
| `Ledger.RunningBalance` | src/main.ts:47-56 | prefix sums: the balance of the first k+1 operations is the balance of the first k plus the signed amount of operation k |
| `Ledger.WithdrawAllLeavesZero` | src/main.ts:110-124 | a debit of exactly the current balance leaves the balance at 0 |
| `Ledger.AdmittedDebitNeverOverdraws` | src/main.ts:110-122 | a debit that passes the `balance < amount` check never makes the balance negative |
| `Ledger.Day` | src/main.ts:136-137 | the local calendar day of an instant, standing for its `toDateString()`; no contract of its own, specified by `DayWindow` |
| `Ledger.OnDate` | src/main.ts:135-137 | the filter's test: the operation's day equals the requested one, never true for an unparseable date; no contract of its own, specified through `OnDay` and `OnDayAppend` |
| `Ledger.DayWindow` | src/main.ts:132-137 | an instant is on day d exactly when it lies in d's 24-hour window, whatever its time of day |
| `Ledger.OnDay` | src/main.ts:128-141 | the by-date statement is an order-preserving subsequence of the statement; it holds exactly the operations on the requested day, each as many times as in the statement, and none if the date does not parse |
| `Ledger.OnDayAppend` | src/main.ts:134-138 | after an append, the new operation appears at the end of its own day's statement and on no other day's; earlier results are unchanged |
| `Accounts.Customer.constructor` | src/main.ts:70-75 | a new customer has the given cpf, name and id and an empty statement |
| `Accounts.Customer.Deposit` | src/main.ts:88-103 | appends exactly one credit with the given amount, instant and description; earlier operations and the name are unchanged; the balance rises by the amount; no sign check |
| `Accounts.Customer.Withdraw` | src/main.ts:106-125 | fails with InsufficientFunds exactly when the balance is below the amount, and then leaves the statement unchanged; otherwise appends exactly one debit, and the balance drops by the amount and stays non-negative |
| `Accounts.Customer.Rename` | src/main.ts:144-151 | replaces the name only; cpf and id are constants and the statement is unchanged |
| `Accounts.Find` | src/index.js:19-31 | returns the index of the first customer with the given cpf; returns None exactly when no customer has it |
| `Accounts.AppendKeepsUnique` | src/index.js:36-49 | pushing a customer whose cpf is absent keeps cpfs unique, and a lookup then finds it at the new last position |
| `Accounts.RemoveKeepsUnique` | src/main.ts:161-166 | splicing one customer out keeps cpfs unique, removes that cpf and keeps every other customer |
| `Accounts.Directory.constructor` | src/index.js:9 | the directory starts empty, so cpfs are trivially unique |
| `Accounts.Directory.Lookup` | src/main.ts:33-45 | returns a listed customer whose cpf equals the requested one, or NotFound exactly when none exists; with unique cpfs it is the only such customer |
| `Accounts.Directory.Create` | src/main.ts:59-78 | fails with AlreadyExists and changes nothing exactly when the cpf is present; otherwise appends one fresh customer with the cpf, name, id and an empty statement, and keeps the earlier entries; a lookup then finds it; cpfs stay unique |
| `Accounts.Directory.Delete` | src/main.ts:161-166 | fails with NotFound and changes nothing when the cpf is absent; otherwise removes exactly the matching customer, keeps the others in order, returns the remaining list; a later lookup of that cpf fails; cpfs stay unique |

## Left out

- Express plumbing is not modelled: routing, middleware chaining, JSON bodies and responses, status codes and `app.listen`. Each error response becomes an `Error` value (`AlreadyExists`, `NotFound`, `InsufficientFunds`).
- The read-only handlers `GET /statement`, `GET /account` and `GET /balance` only serialise `customer.statement`, the customer, or `Balance(customer.statement)`. They have no members of their own.
- `uuidv4()` is a random generator. The id is a parameter of `Create`, and the model does not say that ids are never reused.
- `new Date()` is a clock. The instant of an operation is a parameter of `Deposit` and `Withdraw`. Parsing the date query and the time zone behind `toDateString()` are replaced by the integer day and `Day`. Nothing makes timestamps monotonic, because the code does not enforce it either.
- JavaScript `number` arithmetic is floating point. Amounts and balances are unbounded integers, so the model has no rounding or precision loss.
- In `src/main.ts`, `cpf` has the type `number | string`. A cpf given as a JSON number in the create body never equals the string in a header. The model treats every cpf as a string.
- In `Delete`, `findIndex` could return -1, and `splice(-1, 1)` would then remove the last customer. That case cannot arise after the middleware, so it is not modelled.
- Concurrent requests are not modelled. The service runs one request at a time, so the window between reading the balance and appending the debit in `Withdraw` is not reachable in this sequential model.
