/** Inventory lots as values: sums over them, and selling the cheapest first. */
module Lots {
  import opened Options
  import opened Money

  datatype Lot = Lot(id: string, coin: string, price: real, quantity: real, available: real, locked: real)

  function Quantity(lots: seq<Lot>): real
  {
    if lots == [] then 0.0 else lots[0].quantity + Quantity(lots[1..])
  }

  function CostBasis(lots: seq<Lot>): real
  {
    if lots == [] then 0.0 else Cost(lots[0].price, lots[0].quantity) + CostBasis(lots[1..])
  }

  function WeightedAverage(lots: seq<Lot>): real
  {
    if Quantity(lots) == 0.0 then 0.0 else CostBasis(lots) / Quantity(lots)
  }

  predicate NonNegative(lots: seq<Lot>)
  {
    forall l <- lots :: l.quantity >= 0.0 && l.price >= 0.0
  }

  predicate Sorted(lots: seq<Lot>)
  {
    forall i, j :: 0 <= i < j < |lots| ==> lots[i].price <= lots[j].price
  }

  function Min(x: real, y: real): real
  {
    if x <= y then x else y
  }

  // ----- A stable sort by price -----

  function Insert(x: Lot, s: seq<Lot>): seq<Lot>
  {
    if s == [] || x.price <= s[0].price then [x] + s else [s[0]] + Insert(x, s[1..])
  }

  function SortByPrice(lots: seq<Lot>): seq<Lot>
    decreases lots
  {
    if lots == [] then [] else Insert(lots[0], SortByPrice(lots[1..]))
  }

  lemma {:induction false} InsertContents(x: Lot, s: seq<Lot>)
    ensures multiset(Insert(x, s)) == multiset(s) + multiset{x}
    ensures Quantity(Insert(x, s)) == x.quantity + Quantity(s)
    ensures CostBasis(Insert(x, s)) == Cost(x.price, x.quantity) + CostBasis(s)
  {
    hide Cost;
    if s == [] || x.price <= s[0].price {
      assert ([x] + s)[1..] == s;
    } else {
      InsertContents(x, s[1..]);
      assert ([s[0]] + Insert(x, s[1..]))[1..] == Insert(x, s[1..]);
      assert s == [s[0]] + s[1..];
    }
  }

  lemma SortedPrepend(x: Lot, s: seq<Lot>)
    requires Sorted(s)
    requires (forall l <- s :: x.price <= l.price) || (s != [] && x.price <= s[0].price)
    ensures Sorted([x] + s)
  {
    forall i, j | 0 <= i < j < |[x] + s| ensures ([x] + s)[i].price <= ([x] + s)[j].price {
      assert s[j - 1] in s;
      if i > 0 {
        assert s[i - 1].price <= s[j - 1].price;
      }
    }
  }

  lemma {:induction false} InsertSorted(x: Lot, s: seq<Lot>)
    requires Sorted(s)
    ensures Sorted(Insert(x, s))
  {
    hide CostBasis, Quantity;
    if s == [] || x.price <= s[0].price {
      SortedPrepend(x, s);
    } else {
      InsertSorted(x, s[1..]);
      InsertContents(x, s[1..]);
      var t := Insert(x, s[1..]);
      forall l | l in t ensures s[0].price <= l.price {
        assert l in multiset(t);
        if l != x {
          assert l in s[1..];
          var j :| 0 < j < |s| && s[j] == l;
        }
      }
      SortedPrepend(s[0], t);
    }
  }

  lemma {:induction false} SortContents(lots: seq<Lot>)
    ensures multiset(SortByPrice(lots)) == multiset(lots) && Sorted(SortByPrice(lots))
    ensures Quantity(SortByPrice(lots)) == Quantity(lots) && CostBasis(SortByPrice(lots)) == CostBasis(lots)
    decreases lots
  {
    if lots != [] {
      SortContents(lots[1..]);
      InsertContents(lots[0], SortByPrice(lots[1..]));
      InsertSorted(lots[0], SortByPrice(lots[1..]));
      assert lots == [lots[0]] + lots[1..];
    }
  }

  lemma SortNonNegative(lots: seq<Lot>)
    requires NonNegative(lots)
    ensures NonNegative(SortByPrice(lots))
  {
    SortContents(lots);
    forall l | l in SortByPrice(lots) ensures l in lots {
      assert l in multiset(SortByPrice(lots));
    }
  }

  /** Lots of one price, in the order they are listed. */
  function AtPrice(lots: seq<Lot>, price: real): seq<Lot>
  {
    if lots == [] then []
    else (if lots[0].price == price then [lots[0]] else []) + AtPrice(lots[1..], price)
  }

  lemma AtPriceOfFirst(x: Lot, s: seq<Lot>, price: real)
    ensures AtPrice([x] + s, price) == (if x.price == price then [x] else []) + AtPrice(s, price)
  {
    assert ([x] + s)[1..] == s;
  }

  lemma {:induction false} InsertStable(x: Lot, s: seq<Lot>, price: real)
    ensures AtPrice(Insert(x, s), price) == (if x.price == price then [x] else []) + AtPrice(s, price)
  {
    hide AtPrice;
    if s == [] || x.price <= s[0].price {
      AtPriceOfFirst(x, s, price);
    } else {
      InsertStable(x, s[1..], price);
      AtPriceOfFirst(s[0], Insert(x, s[1..]), price);
      AtPriceOfFirst(s[0], s[1..], price);
      assert s == [s[0]] + s[1..];
    }
  }

  /** Equal prices keep their order. */
  lemma {:induction false} SortStable(lots: seq<Lot>, price: real)
    ensures AtPrice(SortByPrice(lots), price) == AtPrice(lots, price)
    decreases lots
  {
    if lots != [] {
      SortStable(lots[1..], price);
      InsertStable(lots[0], SortByPrice(lots[1..]), price);
    }
  }

  // ----- Selling -----

  /** Selling part of a lot frees the rest of it; what was locked is reduced by what was sold. */
  function PartlySold(l: Lot, sold: real): Lot
  {
    var left := l.quantity - sold;
    var locked := if l.locked <= 0.0 then l.locked
                  else if l.locked - Min(sold, l.locked) >= 0.0 then l.locked - Min(sold, l.locked) else 0.0;
    l.(quantity := left, available := left, locked := locked)
  }

  /** Whole lots go from the front while they fit; the next one is sold in part. */
  function SellFrom(lots: seq<Lot>, sold: real): seq<Lot>
    decreases lots
  {
    if lots == [] || sold <= 0.0 then lots
    else if lots[0].quantity <= sold then SellFrom(lots[1..], sold - lots[0].quantity)
    else [PartlySold(lots[0], sold)] + lots[1..]
  }

  /** How many lots are sold whole. */
  function SoldOut(lots: seq<Lot>, sold: real): nat
    decreases lots
  {
    if lots == [] || sold <= 0.0 || lots[0].quantity > sold then 0
    else 1 + SoldOut(lots[1..], sold - lots[0].quantity)
  }

  function Sell(lots: seq<Lot>, sold: real): seq<Lot>
  {
    SellFrom(SortByPrice(lots), sold)
  }

  /** A prefix of the sorted lots is gone, the lot after it may have lost a part, and the
      rest is untouched. */
  lemma {:induction false} SellsPrefixAndPart(lots: seq<Lot>, sold: real)
    ensures var k := SoldOut(lots, sold);
      k <= |lots| &&
      var left := sold - Quantity(lots[..k]);
      SellFrom(lots, sold) ==
        if k == |lots| || left <= 0.0 then lots[k..] else [PartlySold(lots[k], left)] + lots[k + 1..]
    ensures var k := SoldOut(lots, sold);
      k < |lots| && sold - Quantity(lots[..k]) > 0.0 ==> lots[k].quantity > sold - Quantity(lots[..k])
    decreases lots
  {
    var k := SoldOut(lots, sold);
    if k > 0 {
      SellsPrefixAndPart(lots[1..], sold - lots[0].quantity);
      assert lots[..k][1..] == lots[1..][..k - 1];
      assert lots[1..][k - 1..] == lots[k..];
      if k < |lots| {
        assert lots[1..][k..] == lots[k + 1..];
      }
    } else {
      assert lots[..0] == [];
      assert lots[0..] == lots;
    }
  }

  lemma {:induction false} QuantityNonNegative(lots: seq<Lot>)
    requires NonNegative(lots)
    ensures Quantity(lots) >= 0.0
  {
    if lots != [] {
      assert lots[0] in lots;
      QuantityNonNegative(lots[1..]);
    }
  }

  lemma {:induction false} SellFromRemoves(lots: seq<Lot>, sold: real)
    requires NonNegative(lots) && sold >= 0.0
    ensures Quantity(SellFrom(lots, sold)) == Quantity(lots) - Min(sold, Quantity(lots))
    ensures NonNegative(SellFrom(lots, sold))
    decreases lots
  {
    QuantityNonNegative(lots);
    if lots != [] && sold > 0.0 {
      assert lots[0] in lots;
      QuantityNonNegative(lots[1..]);
      if lots[0].quantity <= sold {
        SellFromRemoves(lots[1..], sold - lots[0].quantity);
      } else {
        assert SellFrom(lots, sold)[1..] == lots[1..];
      }
    }
  }

  /** A sale removes what was asked for, or everything there is. */
  lemma SellRemoves(lots: seq<Lot>, sold: real)
    requires NonNegative(lots) && sold >= 0.0
    ensures Quantity(Sell(lots, sold)) == Quantity(lots) - Min(sold, Quantity(lots))
    ensures NonNegative(Sell(lots, sold))
  {
    SortContents(lots);
    SortNonNegative(lots);
    SellFromRemoves(SortByPrice(lots), sold);
  }

  /** The lot sold in part still adds up exactly when no more was locked than sold. */
  lemma PartlySoldAddsUpIff(l: Lot, sold: real)
    requires 0.0 < sold < l.quantity && l.locked >= 0.0
    ensures var m := PartlySold(l, sold); m.available + m.locked == m.quantity <==> l.locked <= sold
  {
  }

  /** A sale of 2 from a lot of 10 with 5 locked: 8 are left, all available, and 3 still locked. */
  lemma PartlySoldMayNotAddUp(l: Lot)
    requires l.quantity == 10.0 && l.available == 5.0 && l.locked == 5.0
    ensures Sell([l], 2.0) == [l.(quantity := 8.0, available := 8.0, locked := 3.0)]
  {
    assert SortByPrice([l]) == [l] by { assert [l][1..] == []; }
    assert SellFrom([l], 2.0) == [PartlySold(l, 2.0)] + [l][1..];
  }

  // ----- The least cost basis -----

  /** The cost of taking a quantity from the front. */
  function FrontCost(lots: seq<Lot>, taken: real): real
    decreases lots
  {
    if lots == [] || taken <= 0.0 then 0.0
    else if lots[0].quantity <= taken then
      Cost(lots[0].price, lots[0].quantity) + FrontCost(lots[1..], taken - lots[0].quantity)
    else Cost(lots[0].price, taken)
  }

  lemma {:induction false} SellFromGivesUpFrontCost(lots: seq<Lot>, sold: real)
    ensures CostBasis(lots) - CostBasis(SellFrom(lots, sold)) == FrontCost(lots, sold)
    decreases lots
  {
    if lots != [] && sold > 0.0 {
      if lots[0].quantity <= sold {
        SellFromGivesUpFrontCost(lots[1..], sold - lots[0].quantity);
      } else {
        assert SellFrom(lots, sold)[1..] == lots[1..];
        CostAdds(lots[0].price, sold, lots[0].quantity - sold);
      }
    }
  }

  lemma NoCost(price: real)
    ensures Cost(price, 0.0) == 0.0
  {
  }

  /** Taking more from sorted lots costs at least the first price for each further unit. */
  lemma {:induction false} FrontCostSlope(s: seq<Lot>, less: real, more: real, price: real)
    requires NonNegative(s) && Sorted(s) && 0.0 <= less <= more <= Quantity(s)
    requires forall l <- s :: price <= l.price
    ensures FrontCost(s, more) >= FrontCost(s, less) + Cost(price, more - less)
    decreases s
  {
    hide Cost;
    NoCost(price);
    if s != [] && more > 0.0 {
      var q, p := s[0].quantity, s[0].price;
      assert s[0] in s;
      if q <= less && less > 0.0 {
        FrontCostSlope(s[1..], less - q, more - q, price);
      } else if q <= more {
        FrontCostSlope(s[1..], 0.0, more - q, price);
        CostMonotone(price, p, q - less);
        CostAdds(p, less, q - less);
        CostAdds(price, q - less, more - q);
        NoCost(p);
      } else {
        CostMonotone(price, p, more - less);
        CostAdds(p, less, more - less);
        NoCost(p);
      }
    }
  }

  lemma ExchangeFirst(x: Lot, s: seq<Lot>, a: real, b: real)
    requires NonNegative(s) && Sorted(s) && 0.0 <= a <= x.quantity && 0.0 <= b <= Quantity(s)
    requires s == [] || x.price <= s[0].price
    ensures FrontCost([x] + s, a + b) <= FrontCost(s, b) + Cost(x.price, a)
  {
    hide Cost, Quantity;
    NoCost(x.price);
    assert ([x] + s)[1..] == s;
    forall l | l in s ensures x.price <= l.price {
      var i :| 0 <= i < |s| && s[i] == l;
      assert s[0].price <= s[i].price;
    }
    if x.quantity <= a + b {
      FrontCostSlope(s, a + b - x.quantity, b, x.price);
      CostAdds(x.price, a, x.quantity - a);
    } else {
      FrontCostSlope(s, 0.0, b, x.price);
      CostAdds(x.price, a, b);
    }
  }

  /** The same, when the first of the others is cheaper, from the exchange with the rest. */
  lemma ExchangeBehind(first: Lot, rest: seq<Lot>, t: seq<Lot>, price: real, a: real, b: real)
    requires first.quantity >= 0.0 && first.price <= price && 0.0 <= a && 0.0 <= b
    requires first.quantity <= b ==>
      FrontCost(t, a + (b - first.quantity)) <= FrontCost(rest, b - first.quantity) + Cost(price, a)
    requires b < first.quantity <= a + b ==> FrontCost(t, a + b - first.quantity) <= Cost(price, a + b - first.quantity)
    ensures FrontCost([first] + t, a + b) <= FrontCost([first] + rest, b) + Cost(price, a)
  {
    hide Cost;
    var q, p := first.quantity, first.price;
    assert ([first] + t)[1..] == t && ([first] + rest)[1..] == rest;
    NoCost(p);
    NoCost(price);
    if q <= b {
      if b == 0.0 {
        assert FrontCost(rest, b - q) == 0.0;
      }
    } else if a + b < q {
      CostMonotone(p, price, a);
      CostAdds(p, a, b);
    } else {
      CostMonotone(p, price, q - b);
      CostAdds(p, q - b, b);
      CostAdds(price, a + b - q, q - b);
    }
  }

  lemma NothingTakenCostsNothing(s: seq<Lot>)
    ensures FrontCost(s, 0.0) == 0.0
  {
  }

  /** One more lot to take from: taking from the front is no dearer than taking `a` of it
      and `b` from the front of the others. */
  lemma {:induction false} InsertExchange(x: Lot, s: seq<Lot>, a: real, b: real)
    requires NonNegative(s) && Sorted(s) && 0.0 <= a <= x.quantity && 0.0 <= b <= Quantity(s)
    ensures FrontCost(Insert(x, s), a + b) <= FrontCost(s, b) + Cost(x.price, a)
    decreases s
  {
    hide Cost, FrontCost;
    if s == [] || x.price <= s[0].price {
      ExchangeFirst(x, s, a, b);
    } else {
      var q := s[0].quantity;
      assert s[0] in s && s == [s[0]] + s[1..];
      QuantityNonNegative(s[1..]);
      if q <= b {
        InsertExchange(x, s[1..], a, b - q);
      } else if q <= a + b {
        InsertExchange(x, s[1..], a + b - q, 0.0);
        NothingTakenCostsNothing(s[1..]);
      }
      ExchangeBehind(s[0], s[1..], Insert(x, s[1..]), x.price, a, b);
    }
  }

  /** A way to take quantities out of lots: so much from each. */
  predicate CanTake(lots: seq<Lot>, take: seq<real>)
  {
    |take| == |lots| && forall i :: 0 <= i < |lots| ==> 0.0 <= take[i] <= lots[i].quantity
  }

  function Taken(take: seq<real>): real
  {
    if take == [] then 0.0 else take[0] + Taken(take[1..])
  }

  function TakenCost(lots: seq<Lot>, take: seq<real>): real
    requires |take| == |lots|
  {
    if lots == [] then 0.0 else Cost(lots[0].price, take[0]) + TakenCost(lots[1..], take[1..])
  }

  lemma {:induction false} TakenIsBounded(lots: seq<Lot>, take: seq<real>)
    requires CanTake(lots, take)
    ensures 0.0 <= Taken(take) <= Quantity(lots)
    decreases lots
  {
    if lots != [] {
      TakenIsBounded(lots[1..], take[1..]);
    }
  }

  lemma NothingCostsNothing(taken: real)
    ensures FrontCost([], taken) == 0.0
  {
  }

  lemma {:induction false} FrontCostIsLeast(lots: seq<Lot>, take: seq<real>)
    requires NonNegative(lots) && CanTake(lots, take)
    ensures FrontCost(SortByPrice(lots), Taken(take)) <= TakenCost(lots, take)
    decreases lots
  {
    hide Cost, FrontCost, Insert, Quantity, Sorted;
    if lots == [] {
      NothingCostsNothing(Taken(take));
    } else {
      assert lots[0] in lots;
      FrontCostIsLeast(lots[1..], take[1..]);
      TakenIsBounded(lots[1..], take[1..]);
      SortContents(lots[1..]);
      SortNonNegative(lots[1..]);
      InsertExchange(lots[0], SortByPrice(lots[1..]), take[0], Taken(take[1..]));
    }
  }

  lemma {:induction false} FrontCostCapped(lots: seq<Lot>, taken: real)
    requires NonNegative(lots) && taken >= 0.0
    ensures FrontCost(lots, taken) == FrontCost(lots, Min(taken, Quantity(lots)))
    decreases lots
  {
    hide Cost;
    QuantityNonNegative(lots);
    if lots != [] {
      assert lots[0] in lots;
      QuantityNonNegative(lots[1..]);
      NoCost(lots[0].price);
      if 0.0 < taken && lots[0].quantity <= taken {
        FrontCostCapped(lots[1..], taken - lots[0].quantity);
        if Min(taken, Quantity(lots)) <= 0.0 {
          assert lots[0].quantity == 0.0 && FrontCost(lots[1..], 0.0) == 0.0;
        }
      }
    }
  }

  /** Of all ways to take the sold quantity out of the lots, as they were listed, selling the
      cheapest first gives up the least cost basis. */
  lemma SellIsCheapest(lots: seq<Lot>, sold: real, take: seq<real>)
    requires NonNegative(lots) && sold >= 0.0
    requires CanTake(lots, take) && Taken(take) == Min(sold, Quantity(lots))
    ensures CostBasis(lots) - CostBasis(Sell(lots, sold)) <= TakenCost(lots, take)
  {
    SortContents(lots);
    SortNonNegative(lots);
    SellFromGivesUpFrontCost(SortByPrice(lots), sold);
    FrontCostCapped(SortByPrice(lots), sold);
    FrontCostIsLeast(lots, take);
  }

  // ----- The weighted average -----

  /** The same share of every lot. */
  function Shares(lots: seq<Lot>, share: real): seq<real>
  {
    if lots == [] then [] else [Cost(share, lots[0].quantity)] + Shares(lots[1..], share)
  }

  lemma SharesAddOne(l: Lot, rest: seq<Lot>, share: real)
    ensures Cost(share, l.quantity + Quantity(rest)) == Cost(share, l.quantity) + Cost(share, Quantity(rest))
    ensures Cost(share, Cost(l.price, l.quantity) + CostBasis(rest))
         == Cost(l.price, Cost(share, l.quantity)) + Cost(share, CostBasis(rest))
  {
    CostAdds(share, l.quantity, Quantity(rest));
    CostAdds(share, Cost(l.price, l.quantity), CostBasis(rest));
  }

  lemma {:induction false} SharesAdd(lots: seq<Lot>, share: real)
    requires NonNegative(lots) && 0.0 <= share <= 1.0
    ensures CanTake(lots, Shares(lots, share))
    ensures Taken(Shares(lots, share)) == Cost(share, Quantity(lots))
    ensures TakenCost(lots, Shares(lots, share)) == Cost(share, CostBasis(lots))
    decreases lots
  {
    if lots == [] {
      NoCost(share);
    } else {
      var l := lots[0];
      var t := Shares(lots, share);
      assert l in lots && t[1..] == Shares(lots[1..], share);
      SharesAdd(lots[1..], share);
      CostMonotone(0.0, share, l.quantity);
      CostMonotone(share, 1.0, l.quantity);
      SharesAddOne(l, lots[1..], share);
    }
  }

  lemma RatioFalls(basis: real, total: real, givenUp: real, removed: real)
    requires 0.0 <= removed < total && givenUp * total <= basis * removed
    ensures basis / total <= (basis - givenUp) / (total - removed)
  {
    var x, left := basis / total, total - removed;
    var y := (basis - givenUp) / left;
    assert x * total == basis && y * left == basis - givenUp;
    assert (x * removed - givenUp) * total >= 0.0 by {
      assert x * removed * total == x * total * removed;
    }
    assert x * removed >= givenUp by { SignOfFactor(x * removed - givenUp, total); }
    assert (y - x) * left >= 0.0;
    SignOfFactor(y - x, left);
  }

  lemma ShareOfBasis(basis: real, total: real, givenUp: real, removed: real)
    requires total > 0.0 && givenUp <= Cost(removed / total, basis)
    ensures givenUp * total <= basis * removed
  {
    var share := removed / total;
    assert (basis * share - givenUp) * total >= 0.0;
    assert basis * share * total == basis * (share * total);
  }

  /** So the weighted average price of what is left never falls. */
  lemma AverageNeverFalls(lots: seq<Lot>, sold: real)
    requires NonNegative(lots) && sold >= 0.0 && Quantity(Sell(lots, sold)) > 0.0
    ensures WeightedAverage(Sell(lots, sold)) >= WeightedAverage(lots)
  {
    hide Sell, CostBasis, Quantity;
    SellRemoves(lots, sold);
    QuantityNonNegative(lots);
    var total := Quantity(lots);
    var removed := Min(sold, total);
    assert total > 0.0 && 0.0 <= removed < total;
    var share := removed / total;
    assert 0.0 <= share <= 1.0;
    SharesAdd(lots, share);
    assert Cost(share, total) == removed;
    SellIsCheapest(lots, sold, Shares(lots, share));
    var givenUp := CostBasis(lots) - CostBasis(Sell(lots, sold));
    ShareOfBasis(CostBasis(lots), total, givenUp, removed);
    RatioFalls(CostBasis(lots), total, givenUp, removed);
  }
}
