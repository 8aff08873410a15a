/** Percentage sizing and the available/locked ledger of the Buy Dip strategy. */
module Budgets {
  import opened Options

  datatype Budget = Budget(available: real, locked: real, percentage: real, minimum: real)

  function OrderSize(b: Budget): Option<real>
  {
    var size := b.available * (b.percentage / 100.0);
    if size >= b.minimum then Some(size) else None
  }

  function Lock(b: Budget, amount: real): Budget
  {
    b.(available := b.available - amount, locked := b.locked + amount)
  }

  function Release(b: Budget, amount: real, profit: real): Budget
  {
    b.(available := b.available + (amount + profit), locked := b.locked - amount)
  }

  /** The percentage of what is available is at least the minimum. */
  predicate Affords(b: Budget)
  {
    b.available * b.percentage >= 100.0 * b.minimum
  }

  /** An order is sized at that percentage, and only then. */
  lemma OrderSizeIff(b: Budget)
    ensures OrderSize(b).Some? <==> Affords(b)
    ensures OrderSize(b).Some? ==> 100.0 * OrderSize(b).value == b.available * b.percentage
  {
    assert 100.0 * (b.available * (b.percentage / 100.0)) == b.available * b.percentage;
  }

  /** An order never costs more than what is available. */
  lemma OrderSizeIsCovered(b: Budget)
    requires b.available >= 0.0 && 0.0 < b.percentage <= 100.0
    requires OrderSize(b).Some?
    ensures b.minimum <= OrderSize(b).value <= b.available
  {
    var share := b.percentage / 100.0;
    assert b.available * share <= b.available * 1.0;
  }

  class BudgetManager {
    var availableBudget: real
    var lockedBudget: real
    const orderSizePercentage: real
    const minOrderSize: real

    constructor (initialBudget: real, orderSizePercentage: real := 2.0, minOrderSize: real := 10.0)
      ensures View() == Budget(initialBudget, 0.0, orderSizePercentage, minOrderSize)
    {
      availableBudget, lockedBudget := initialBudget, 0.0;
      this.orderSizePercentage := orderSizePercentage;
      this.minOrderSize := minOrderSize;
    }

    function View(): Budget
      reads this
    {
      Budget(availableBudget, lockedBudget, orderSizePercentage, minOrderSize)
    }

    method CalculateOrderSize() returns (size: Option<real>)
      ensures size == OrderSize(View())
    {
      var orderSize := availableBudget * (orderSizePercentage / 100.0);
      size := if orderSize >= minOrderSize then Some(orderSize) else None;
    }

    method LockFunds(amount: real)
      modifies this
      ensures View() == Lock(old(View()), amount)
    {
      availableBudget := availableBudget - amount;
      lockedBudget := lockedBudget + amount;
    }

    method ReleaseFunds(amount: real, profit: real := 0.0)
      modifies this
      ensures View() == Release(old(View()), amount, profit)
    {
      lockedBudget := lockedBudget - amount;
      availableBudget := availableBudget + (amount + profit);
    }
  }
}
