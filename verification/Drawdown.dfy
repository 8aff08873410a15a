/** One-pass maximum drawdown of a budget history. */
module Drawdowns {
  import opened Money

  /** How far `low` lies under `high`, in percent. */
  function Drop(high: real, low: real): real
    requires high != 0.0
  {
    (high - low) / high * 100.0
  }

  /** No later total lies further under an earlier one, and some pair lies that far. */
  ghost predicate IsMaxDrawdown(totals: seq<real>, d: real)
  {
    (forall i, j :: 0 <= i <= j < |totals| && totals[i] > 0.0 ==> Drop(totals[i], totals[j]) <= d) &&
    exists i, j :: 0 <= i <= j < |totals| && totals[i] > 0.0 && Drop(totals[i], totals[j]) == d
  }

  lemma SameFactor(a: real, b: real, c: real)
    requires c != 0.0 && a * c == b * c
    ensures a == b
  {
    assert (a - b) * c == 0.0;
  }

  /** Drop in terms of the share that is left. */
  lemma DropIsShare(high: real, low: real, share: real)
    requires high != 0.0 && share * high == low
    ensures Drop(high, low) == (1.0 - share) * 100.0
  {
    var gone := (high - low) / high;
    assert gone * high == high - low;
    assert (1.0 - share) * high == high - low;
    SameFactor(gone, 1.0 - share, high);
  }

  lemma DropGrows(high: real, low: real, peak: real)
    requires 0.0 < high <= peak && low >= 0.0
    ensures Drop(high, low) <= Drop(peak, low)
  {
    var x, y := low / high, low / peak;
    assert x * high == low && y * peak == low;
    SignOfFactor(x, high);
    assert x * (peak - high) >= 0.0;
    assert (x - y) * peak >= 0.0;
    SignOfFactor(x - y, peak);
    DropIsShare(high, low, x);
    DropIsShare(peak, low, y);
  }

  lemma DropIsPercentage(high: real, low: real)
    requires high > 0.0 && 0.0 <= low <= high
    ensures 0.0 <= Drop(high, low) <= 100.0
  {
    var share := low / high;
    assert share * high == low;
    SignOfFactor(share, high);
    assert (1.0 - share) * high >= 0.0;
    SignOfFactor(1.0 - share, high);
    DropIsShare(high, low, share);
  }

  lemma NoDrop(x: real)
    requires x != 0.0
    ensures Drop(x, x) == 0.0
  {
  }

  /** The running peak finds the maximum over all pairs, the initial budget included. */
  method CalculateMaxDrawdown(history: seq<real>, initialBudget: real) returns (maxDrawdown: real)
    requires initialBudget > 0.0
    ensures (forall total <- history :: total >= 0.0) ==>
      IsMaxDrawdown([initialBudget] + history, maxDrawdown) && 0.0 <= maxDrawdown <= 100.0
  {
    hide Drop;
    ghost var totals := [initialBudget] + history;
    ghost var sensible := forall total <- history :: total >= 0.0;
    var peak := initialBudget;
    maxDrawdown := 0.0;
    ghost var top, from, to := 0, 0, 0;
    assert Drop(initialBudget, initialBudget) == 0.0 by { NoDrop(initialBudget); }
    for n := 0 to |history|
      invariant 0 <= top <= n && totals[top] == peak && peak > 0.0
      invariant forall i :: 0 <= i <= n ==> totals[i] <= peak
      invariant 0 <= from <= to <= n && totals[from] > 0.0 && Drop(totals[from], totals[to]) == maxDrawdown
      invariant maxDrawdown >= 0.0 && (sensible ==> maxDrawdown <= 100.0)
      invariant sensible ==> forall i, j :: 0 <= i <= j <= n && totals[i] > 0.0 ==>
        Drop(totals[i], totals[j]) <= maxDrawdown
    {
      var total := history[n];
      assert totals[n + 1] == total;
      if total > peak {
        peak, top := total, n + 1;
      }
      var drawdown := Drop(peak, total);
      if sensible {
        assert total in history;
        DropIsPercentage(peak, total);
        forall i | 0 <= i <= n + 1 && totals[i] > 0.0 ensures Drop(totals[i], total) <= drawdown {
          DropGrows(totals[i], total, peak);
        }
      }
      if drawdown > maxDrawdown {
        maxDrawdown, from, to := drawdown, top, n + 1;
      }
    }
  }
}
