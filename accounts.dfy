/** The account hierarchy: `BankAccount` and its variant `CheckingAccount`, both holding a
    balance that their methods update in place with no floor. `CheckingAccount.withdraw`
    delegates to the base withdraw; here that is written out as the composed update. */
module Accounts {

  class BankAccount {
    var balance: int

    constructor (balance: int)
      ensures this.balance == balance
    {
      this.balance := balance;
    }

    /** No sufficiency check: the balance may become negative. */
    method Withdraw(amount: int)
      modifies this
      ensures balance == old(balance) - amount
    {
      balance := balance - amount;
    }
  }

  /** What `CheckingAccount.withdraw(amount, fee)` takes off the balance: `amount - fee`
      when the fee is within the limit, `amount - limit` otherwise. That is the larger
      of the two, i.e. `amount - min(fee, limit)`. */
  function NetDeduction(amount: int, fee: int, limit: int): (d: int)
    ensures d >= amount - fee && d >= amount - limit
    ensures d == amount - fee || d == amount - limit
  {
    if fee <= limit then amount - fee else amount - limit
  }

  class CheckingAccount {
    var balance: int
    var limit: int

    constructor (balance: int, limit: int)
      ensures this.balance == balance && this.limit == limit
    {
      this.balance := balance;
      this.limit := limit;
    }

    method Deposit(amount: int)
      modifies this
      ensures balance == old(balance) + amount
      ensures limit == old(limit)
    {
      balance := balance + amount;
    }

    method Withdraw(amount: int, fee: int := 0)
      modifies this
      ensures balance == old(balance) - NetDeduction(amount, fee, old(limit))
      ensures limit == old(limit)
    {
      if fee <= limit {
        balance := balance - (amount - fee);
      } else {
        balance := balance - (amount - limit);
      }
    }
  }

  /** A call on a checking account, as a value, so that sequences of calls can be reasoned about. */
  datatype CheckingOp = Deposit(amount: int) | Withdraw(amount: int, fee: int)

  /** The balance after one call, as the methods of CheckingAccount leave it. */
  function Step(balance: int, limit: int, op: CheckingOp): int {
    match op
    case Deposit(a) => balance + a
    case Withdraw(a, f) => balance - NetDeduction(a, f, limit)
  }

  /** The balance after the calls `ops`, made in order (the limit never changes). */
  function Replay(balance: int, limit: int, ops: seq<CheckingOp>): int
    decreases |ops|
  {
    if ops == [] then balance
    else Step(Replay(balance, limit, ops[..|ops| - 1]), limit, ops[|ops| - 1])
  }

  /** Everything the calls `ops` deposit. */
  function Deposited(ops: seq<CheckingOp>): int
  {
    if ops == [] then 0
    else (if ops[0].Deposit? then ops[0].amount else 0) + Deposited(ops[1..])
  }

  /** Everything the calls `ops` deduct, fees capped by `limit`. */
  function Deducted(limit: int, ops: seq<CheckingOp>): int
  {
    if ops == [] then 0
    else (if ops[0].Withdraw? then NetDeduction(ops[0].amount, ops[0].fee, limit) else 0)
         + Deducted(limit, ops[1..])
  }

  lemma {:induction false} TotalsOfAppend(limit: int, ops: seq<CheckingOp>, op: CheckingOp)
    ensures Deposited(ops + [op]) == Deposited(ops) + Deposited([op])
    ensures Deducted(limit, ops + [op]) == Deducted(limit, ops) + Deducted(limit, [op])
  {
    if ops != [] {
      assert (ops + [op])[1..] == ops[1..] + [op];
      TotalsOfAppend(limit, ops[1..], op);
    }
  }

  lemma TotalsOfPair(limit: int, first: CheckingOp, second: CheckingOp)
    ensures Deposited([first, second]) == Deposited([first]) + Deposited([second])
    ensures Deducted(limit, [first, second]) == Deducted(limit, [first]) + Deducted(limit, [second])
  {
    assert [first, second] == [first] + [second];
    TotalsOfAppend(limit, [first], second);
  }

  /** The ledger: whatever the calls, the final balance is the starting balance plus all
      deposits minus all net deductions, with no floor anywhere. */
  lemma {:induction false} ReplayIsLedger(balance: int, limit: int, ops: seq<CheckingOp>)
    ensures Replay(balance, limit, ops) == balance + Deposited(ops) - Deducted(limit, ops)
    decreases |ops|
  {
    if ops != [] {
      var init, last := ops[..|ops| - 1], ops[|ops| - 1];
      assert ops == init + [last];
      ReplayIsLedger(balance, limit, init);
      TotalsOfAppend(limit, init, last);
    }
  }

  /** A deposit followed by a withdrawal of the same amount with the default fee 0 restores
      the balance exactly when the limit is non-negative; with a negative limit it takes off
      `-limit` more. */
  lemma DepositThenWithdrawRestores(balance: int, limit: int, amount: int)
    ensures Replay(balance, limit, [Deposit(amount), Withdraw(amount, 0)])
            == if limit >= 0 then balance else balance + limit
    ensures Replay(balance, limit, [Deposit(amount), Withdraw(amount, 0)]) == balance <==> limit >= 0
  {
    var ops := [Deposit(amount), Withdraw(amount, 0)];
    ReplayIsLedger(balance, limit, ops);
    TotalsOfPair(limit, Deposit(amount), Withdraw(amount, 0));
  }

  /** An illustrative client: both branches of the checking withdrawal (a fee within the
      limit, then a fee above it) and an overdraft of a base account, as a caller sees them
      through the contracts above. */
  method WithdrawScenarios()
  {
    var c := new CheckingAccount(100, 10);
    c.Withdraw(100, 5);
    assert c.balance == 100 - 95;
    c.Withdraw(100, 20);
    assert c.balance == 100 - 95 - 90;
    var b := new BankAccount(0);
    b.Withdraw(10);
    assert b.balance == -10;
  }

  /** The imperative account and the ledger agree: a deposit and a withdrawal on a fresh
      checking account leave the balance `Replay` predicts. */
  method DepositThenWithdraw(balance: int, limit: int, amount: int, fee: int) returns (final: int)
    ensures final == Replay(balance, limit, [Deposit(amount), Withdraw(amount, fee)])
    ensures final == balance + amount - NetDeduction(amount, fee, limit)
  {
    var c := new CheckingAccount(balance, limit);
    c.Deposit(amount);
    c.Withdraw(amount, fee);
    final := c.balance;
    var ops := [Deposit(amount), Withdraw(amount, fee)];
    ReplayIsLedger(balance, limit, ops);
    TotalsOfPair(limit, Deposit(amount), Withdraw(amount, fee));
  }

  /** On a real checking account with a non-negative limit, a deposit followed by a
      withdrawal of the same amount with the default fee leaves the balance as it was. */
  method DepositThenWithdrawOn(c: CheckingAccount, amount: int)
    requires c.limit >= 0
    modifies c
    ensures c.balance == old(c.balance) && c.limit == old(c.limit)
  {
    c.Deposit(amount);
    c.Withdraw(amount);
  }
}
