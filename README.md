# Customers, accounts and employees, in Dafny

A model of the object-oriented teaching script `oop.py`. It covers three groups of classes:

- `CUSTOMER`. Construction clamps the age up to the class constant `MIN_AGE = 18` and raises `BalanceError` on a negative balance. `from_file` passes four parsed values to the constructor. `==` compares only `id`, `name` and `age`.
- `BankAccount` and `CheckingAccount`. Both hold a balance that `withdraw` updates in place with no floor; only `CheckingAccount` has `deposit`. The checking account's `withdraw(amount, fee=0)` takes off `amount - fee` when the fee is within the overdraft limit, and `amount - limit` otherwise.
- `Employee`. A protected `_salary` sits behind a property whose setter raises `ValueError` on negative values. The constructor stores its salary unchecked.

Files:

- `errors.dfy` (module `Errors`): the two exceptions, and `Result`/`Outcome` values for operations that may raise.
- `customer.dfy` (module `Customers`): `Customer` as a value. No method of the class changes a customer after `__init__`, and `__init__` may raise, so construction is a function returning `Result<Customer>`.
- `accounts.dfy` (module `Accounts`):
  - classes `BankAccount` and `CheckingAccount`, whose methods update `balance` in place;
  - `NetDeduction`, which gives what a checking withdrawal takes off;
  - a ledger over sequences of calls (`CheckingOp`, `Replay`, `Deposited`, `Deducted`);
  - an illustrative client that runs both branches of the checking withdrawal (oop.py:96-99) and an overdraft of a base account;
  - `DepositThenWithdrawOn`, the deposit-then-withdraw round trip on a real account object.
- `employee.dfy` (module `Employees`):
  - class `Employee`, with the getter `Salary()` and the setter `SetSalary`;
  - `Assign`, which gives the setter's effect on the stored value;
  - `AfterSets`, the salary after a sequence of setter calls;
  - `SetSalaries`, which calls the setter of a real `Employee` with a sequence of values and ends where `AfterSets` says;
  - a client scenario with a negative starting salary and a refused update, following the `Employee` steps of `main` (oop.py:148-151).

Python integers are unbounded, so every quantity is a Dafny `int`. A raised exception is a `Err`/`Fail` result, never a precondition. Inheritance is not modelled: `CheckingAccount` has its own `balance` field, and its `withdraw`, which calls the base `withdraw`, is written as the composed balance update.

## Model

| member | source | states |
|---|---|---|
| `Customers.ClampAge` | oop.py:23-34 | the stored age is the larger of the supplied age and `MIN_AGE` (18): at least 18, equal to the supplied age when that is at least 18, and otherwise 18 |
| `Customers.NewCustomer` | oop.py:27-40 | construction fails with `BalanceError` exactly when `balance < 0`; otherwise name, id and balance are stored as given, the age is clamped, and the customer has age >= 18 and balance >= 0 |
| `Customers.FromRecord` | oop.py:50-57 | the alternative constructor gives exactly what the constructor gives for the four parsed fields, error included |
| `Customers.Equal` | oop.py:44-46 | `==` holds iff the two customers are identical once the balance is disregarded (id, name and age agree) |
| `Customers.EqualIsEquivalence` | oop.py:44-46 | `==` is reflexive, symmetric and transitive |
| `Customers.ConstructedEqual` | oop.py:27-46 | customers built from the same name, id and age compare equal whatever their (valid) balances, and so do two under-age customers with different supplied ages |
| `Customers.EqualDespiteDifferentBalances` | oop.py:44-46 | there are two valid customers that compare equal but have different balances |
| `Accounts.BankAccount.constructor` | oop.py:68-69 | the balance is stored as given |
| `Accounts.BankAccount.Withdraw` | oop.py:70-71 | the new balance is the old one minus the amount, with no sufficiency check (it may go negative) |
| `Accounts.NetDeduction` | oop.py:95-99 | a checking withdrawal takes off the larger of `amount - fee` and `amount - limit`, i.e. `amount - min(fee, limit)` |
| `Accounts.CheckingAccount.constructor` | oop.py:90-92 | balance and limit are stored as given |
| `Accounts.CheckingAccount.Deposit` | oop.py:93-94 | the new balance is the old one plus the amount; the limit is unchanged |
| `Accounts.CheckingAccount.Withdraw` | oop.py:95-99 | the new balance is the old one minus `amount - min(fee, limit)` (the fee defaults to 0); the limit is unchanged |
| `Accounts.ReplayIsLedger` | oop.py:67-99 | after any sequence of deposits and withdrawals, the balance is the starting balance plus all deposits minus all net deductions; there is no floor |
| `Accounts.DepositThenWithdrawRestores` | oop.py:93-99 | a deposit followed by a withdrawal of the same amount with fee 0 restores the balance iff the limit is non-negative; with a negative limit, `-limit` more is taken off |
| `Accounts.DepositThenWithdraw` | oop.py:89-99 | a deposit and then a withdrawal on a real `CheckingAccount` leave the balance that the ledger predicts |
| `Accounts.DepositThenWithdrawOn` | oop.py:93-99 | on a `CheckingAccount` object with a non-negative limit, `deposit(a)` then `withdraw(a)` with the default fee leaves balance and limit as they were |
| `Employees.Assign` | oop.py:119-122 | the setter stores a non-negative value, and otherwise keeps the current one; it never brings in a negative value |
| `Employees.Employee.constructor` | oop.py:107-109 | the salary is stored as given, without validation (it may be negative); the name is not stored |
| `Employees.Employee.SetSalary` | oop.py:113-122 | the setter raises `ValueError` iff the new value is negative, and then leaves the salary unchanged; otherwise the getter `Salary()` returns exactly the new value |
| `Employees.AfterSetsIsLastAccepted` | oop.py:118-122 | after any sequence of setter calls, the salary is the last value the setter accepted, or the constructor's value if every call raised |
| `Employees.SetSalaries` | oop.py:113-122 | calling the setter of an `Employee` object with any sequence of values leaves the salary that `AfterSets` gives, so the two lemmas below hold of the object itself |
| `Employees.NonNegativeOnceAccepted` | oop.py:107-122 | the salary stays non-negative through any setter calls once it starts non-negative or the setter has accepted a value; only the constructor can bring in a negative salary |

## Left out

- `print` calls in the constructor and in `identify` (oop.py:30, 61-62): console output only. `identify` is therefore not modelled.
- File reading in `from_file`, with `rstrip` and `int()` parsing (oop.py:52-57): I/O and library calls. `FromRecord` takes the four values already parsed. A malformed file is not modelled.
- `SavingsAccount` (oop.py:75-85): its `compute_interest` is floating-point arithmetic, and its constructor only adds that rate to a base account.
- `main` (oop.py:135-151): demonstration plumbing. `SalaryScenarios` follows its `Employee` steps (oop.py:148-151); `main` touches no account, and `WithdrawScenarios` is only an illustrative client of the account classes.
- Python's `@property`/`@classmethod` machinery, inheritance and dynamic dispatch. `CheckingAccount.Withdraw` is the composed update. `Salary()` is the getter and `SetSalary` the setter.
- `Customers.Equal` is defined only between two customers. Python's `__eq__` would also accept any object that has `id`, `name` and `age` attributes.
