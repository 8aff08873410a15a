/**
 The portfolio's lot lists as the objects they are: items changed in place by sales, locks,
 cancels and account updates. Every method is proved to do to the lots' values what `Lots`
 and `LotLocks` say.
 */
module Portfolios {
  import opened Options
  import opened Money
  import opened Lots
  import opened LotLocks

  class InventoryItem {
    const id: string
    const coin: string
    const price: real
    var quantity: real
    var available: real
    var locked: real

    constructor (l: Lot)
      ensures View() == l
    {
      id, coin, price, quantity, available, locked := l.id, l.coin, l.price, l.quantity, l.available, l.locked;
    }

    function View(): Lot
      reads this
    {
      Lot(id, coin, price, quantity, available, locked)
    }
  }

  function Views(items: seq<InventoryItem>): (views: seq<Lot>)
    reads items
    ensures |views| == |items| && forall i :: 0 <= i < |items| ==> views[i] == items[i].View()
  {
    if items == [] then [] else [items[0].View()] + Views(items[1..])
  }

  predicate Distinct(items: seq<InventoryItem>)
  {
    forall i, j :: 0 <= i < j < |items| ==> items[i].id != items[j].id
  }

  // ----- Sorting the items themselves -----

  function InsertItem(x: InventoryItem, s: seq<InventoryItem>): (r: seq<InventoryItem>)
    ensures forall i :: 0 <= i < |r| ==> r[i] == x || r[i] in s
  {
    if s == [] || x.price <= s[0].price then [x] + s else [s[0]] + InsertItem(x, s[1..])
  }

  function SortItems(items: seq<InventoryItem>): (r: seq<InventoryItem>)
    ensures forall i :: 0 <= i < |r| ==> r[i] in items
    decreases items
  {
    if items == [] then [] else InsertItem(items[0], SortItems(items[1..]))
  }

  lemma ViewsPrepend(x: InventoryItem, s: seq<InventoryItem>)
    ensures Views([x] + s) == [x.View()] + Views(s)
  {
    assert ([x] + s)[1..] == s;
  }

  lemma {:induction false} InsertItemViews(x: InventoryItem, s: seq<InventoryItem>)
    ensures Views(InsertItem(x, s)) == Insert(x.View(), Views(s))
  {
    hide Views;
    ViewsPrepend(x, s);
    if s == [] || x.price <= s[0].price {
      assert s == [] <==> Views(s) == [];
    } else {
      InsertItemViews(x, s[1..]);
      assert s == [s[0]] + s[1..];
      ViewsPrepend(s[0], s[1..]);
      ViewsPrepend(s[0], InsertItem(x, s[1..]));
      assert Views(s)[1..] == Views(s[1..]);
    }
  }

  lemma {:induction false} SortItemsViews(items: seq<InventoryItem>)
    ensures Views(SortItems(items)) == SortByPrice(Views(items))
    decreases items
  {
    hide Views, InsertItem, Insert;
    if items == [] {
      assert Views(items) == [];
    } else {
      SortItemsViews(items[1..]);
      InsertItemViews(items[0], SortItems(items[1..]));
      assert items == [items[0]] + items[1..];
      ViewsPrepend(items[0], items[1..]);
      assert Views(items)[1..] == Views(items[1..]);
    }
  }

  function IdsOf(items: seq<InventoryItem>): set<string>
  {
    set x <- items :: x.id
  }

  lemma DistinctPrepend(x: InventoryItem, s: seq<InventoryItem>)
    ensures Distinct([x] + s) <==> x.id !in IdsOf(s) && Distinct(s)
    ensures IdsOf([x] + s) == {x.id} + IdsOf(s)
  {
    var t := [x] + s;
    assert forall y :: y in t <==> y == x || y in s;
    if Distinct(t) {
      forall i | 0 <= i < |s| ensures s[i].id != x.id {
        assert t[0].id != t[i + 1].id;
      }
      forall i, j | 0 <= i < j < |s| ensures s[i].id != s[j].id {
        assert t[i + 1].id != t[j + 1].id;
      }
    }
  }

  lemma {:induction false} InsertItemDistinct(x: InventoryItem, s: seq<InventoryItem>)
    ensures Distinct([x] + s) ==> Distinct(InsertItem(x, s))
    ensures forall y :: y in InsertItem(x, s) <==> y == x || y in s
    ensures IdsOf(InsertItem(x, s)) == {x.id} + IdsOf(s)
  {
    hide Distinct;
    DistinctPrepend(x, s);
    if s != [] && x.price > s[0].price {
      var first, rest := s[0], s[1..];
      assert s == [first] + rest;
      InsertItemDistinct(x, rest);
      DistinctPrepend(first, rest);
      DistinctPrepend(x, rest);
      DistinctPrepend(first, InsertItem(x, rest));
      assert InsertItem(x, s) == [first] + InsertItem(x, rest);
    }
  }

  lemma {:induction false} SortItemsDistinct(items: seq<InventoryItem>)
    requires Distinct(items)
    ensures Distinct(SortItems(items)) && forall x :: x in SortItems(items) <==> x in items
    ensures IdsOf(SortItems(items)) == IdsOf(items)
    decreases items
  {
    hide InsertItem;
    if items != [] {
      hide Distinct;
      var x, rest := items[0], items[1..];
      assert items == [x] + rest;
      DistinctPrepend(x, rest);
      SortItemsDistinct(rest);
      DistinctPrepend(x, SortItems(rest));
      InsertItemDistinct(x, SortItems(rest));
    }
  }

  /** The items of a list that are not among the sold ones. */
  function Without(items: seq<InventoryItem>, ids: set<string>): seq<InventoryItem>
  {
    if items == [] then []
    else (if items[0].id in ids then [] else [items[0]]) + Without(items[1..], ids)
  }

  lemma WithoutFirst(x: InventoryItem, s: seq<InventoryItem>, ids: set<string>)
    ensures Without([x] + s, ids) == if x.id in ids then Without(s, ids) else [x] + Without(s, ids)
  {
    assert ([x] + s)[1..] == s;
  }

  lemma {:induction false} WithoutMembers(items: seq<InventoryItem>, ids: set<string>)
    ensures forall x :: x in Without(items, ids) <==> x in items && x.id !in ids
    ensures Distinct(items) ==> Distinct(Without(items, ids))
    decreases items
  {
    if items != [] {
      hide Without, Distinct;
      var x, rest := items[0], items[1..];
      assert items == [x] + rest;
      WithoutMembers(rest, ids);
      WithoutFirst(x, rest, ids);
      DistinctPrepend(x, rest);
      DistinctPrepend(x, Without(rest, ids));
      assert IdsOf(Without(rest, ids)) <= IdsOf(rest);
    }
  }

  lemma {:induction false} WithoutTwice(items: seq<InventoryItem>, ids: set<string>, more: set<string>)
    ensures Without(Without(items, ids), more) == Without(items, ids + more)
    decreases items
  {
    if items != [] {
      hide Without;
      var x, rest := items[0], items[1..];
      assert items == [x] + rest;
      WithoutTwice(rest, ids, more);
      WithoutFirst(x, rest, ids);
      WithoutFirst(x, rest, ids + more);
      WithoutFirst(x, Without(rest, ids), more);
    }
  }

  lemma {:induction false} WithoutNone(items: seq<InventoryItem>)
    ensures Without(items, {}) == items
    decreases items
  {
    if items != [] {
      WithoutNone(items[1..]);
      assert items == [items[0]] + items[1..];
      WithoutFirst(items[0], items[1..], {});
    }
  }

  lemma NothingToSell(sold: real)
    ensures SortByPrice([]) == [] && SellFrom([], sold) == []
  {
  }

  lemma SellStep(lots: seq<Lot>, sold: real)
    ensures lots == [] || sold <= 0.0 ==> SellFrom(lots, sold) == lots && SoldOut(lots, sold) == 0
    ensures lots != [] && sold > 0.0 && lots[0].quantity <= sold ==>
      SellFrom(lots, sold) == SellFrom(lots[1..], sold - lots[0].quantity) &&
      SoldOut(lots, sold) == 1 + SoldOut(lots[1..], sold - lots[0].quantity)
    ensures lots != [] && sold > 0.0 && lots[0].quantity > sold ==>
      SellFrom(lots, sold) == [PartlySold(lots[0], sold)] + lots[1..] && SoldOut(lots, sold) == 0
  {
  }

  lemma {:induction false} LockFromStep(lots: seq<Lot>, coin: string, left: real)
    ensures |LockFrom(lots, coin, left)| == |lots|
    ensures left <= 0.0 ==> LockFrom(lots, coin, left) == lots
    ensures left > 0.0 && lots != [] ==>
      var amount := if lots[0].coin == coin && lots[0].available > 0.0 then Min(lots[0].available, left) else 0.0;
      LockFrom(lots, coin, left)[0] == Move(lots[0], amount) &&
      LockFrom(lots, coin, left)[1..] == LockFrom(lots[1..], coin, left - amount)
    decreases lots
  {
    if lots != [] && left > 0.0 {
      var amount := if lots[0].coin == coin && lots[0].available > 0.0 then Min(lots[0].available, left) else 0.0;
      LockFromStep(lots[1..], coin, left - amount);
    }
  }

  lemma {:induction false} UnlockFromStep(lots: seq<Lot>, coin: string, left: real)
    ensures |UnlockFrom(lots, coin, left)| == |lots|
    ensures left <= 0.0 ==> UnlockFrom(lots, coin, left) == lots
    ensures left > 0.0 && lots != [] ==>
      var amount := if lots[0].coin == coin && lots[0].locked > 0.0 then Min(lots[0].locked, left) else 0.0;
      UnlockFrom(lots, coin, left)[0] == Move(lots[0], -amount) &&
      UnlockFrom(lots, coin, left)[1..] == UnlockFrom(lots[1..], coin, left - amount)
    decreases lots
  {
    if lots != [] && left > 0.0 {
      var amount := if lots[0].coin == coin && lots[0].locked > 0.0 then Min(lots[0].locked, left) else 0.0;
      UnlockFromStep(lots[1..], coin, left - amount);
    }
  }

  /** The lot rows of a coin show items of the inventory, each once. */
  predicate Consistent(inventory: seq<InventoryItem>, coinLots: map<string, seq<InventoryItem>>)
  {
    Distinct(inventory) &&
    forall coin <- coinLots ::
      Distinct(coinLots[coin]) && forall x <- coinLots[coin] :: x in inventory && x.coin == coin
  }

  lemma ConsistentLots(inventory: seq<InventoryItem>, coinLots: map<string, seq<InventoryItem>>, coin: string)
    requires Consistent(inventory, coinLots) && coin in coinLots
    ensures Distinct(inventory) && Distinct(coinLots[coin]) && forall x <- coinLots[coin] :: x in inventory
  {
  }

  lemma SoldIds(inventory: seq<InventoryItem>, sorted: seq<InventoryItem>, k: nat, x: InventoryItem)
    requires Distinct(inventory) && Distinct(sorted) && k <= |sorted| && x in inventory
    requires forall y <- sorted :: y in inventory
    ensures x.id in IdsOf(sorted[..k]) <==> x in sorted && x !in sorted[k..]
  {
    if x.id in IdsOf(sorted[..k]) {
      var y :| y in sorted[..k] && y.id == x.id;
      assert y in sorted && y in inventory;
      assert x == y;
    }
  }

  /** Dropping the first `k` sorted lots of a coin from both lists keeps them consistent. */
  lemma SaleKeepsConsistent(inventory: seq<InventoryItem>, coinLots: map<string, seq<InventoryItem>>, coin: string,
                            k: nat)
    requires Consistent(inventory, coinLots) && coin in coinLots && k <= |SortItems(coinLots[coin])|
    ensures var sorted := SortItems(coinLots[coin]);
      var left := Without(inventory, IdsOf(sorted[..k]));
      Consistent(left, coinLots[coin := sorted[k..]]) &&
      forall x :: x in left <==> x in inventory && (x !in coinLots[coin] || x in sorted[k..])
  {
    hide SortItems, Without;
    var sorted := SortItems(coinLots[coin]);
    var gone := IdsOf(sorted[..k]);
    var left := Without(inventory, gone);
    ConsistentLots(inventory, coinLots, coin);
    SortItemsDistinct(coinLots[coin]);
    WithoutMembers(inventory, gone);
    assert Distinct(sorted[k..]);
    assert sorted == sorted[..k] + sorted[k..];
    forall x | x in inventory ensures x in left <==> x !in coinLots[coin] || x in sorted[k..] {
      SoldIds(inventory, sorted, k, x);
    }
    forall c | c in coinLots && c != coin ensures forall x <- coinLots[c] :: x in left {
      forall x | x in coinLots[c] ensures x in left {
        assert x in inventory && x.coin == c;
      }
    }
  }

  lemma ConsistentIsDistinct(inventory: seq<InventoryItem>, coinLots: map<string, seq<InventoryItem>>)
    requires Consistent(inventory, coinLots)
    ensures Distinct(inventory)
  {
  }

  class Portfolio {
    var inventory: seq<InventoryItem>
    var coinLots: map<string, seq<InventoryItem>>

    predicate Valid()
      reads this
    {
      Consistent(inventory, coinLots)
    }

    constructor (items: seq<InventoryItem>)
      requires Distinct(items)
      ensures Valid() && inventory == items && coinLots == map[]
    {
      inventory, coinLots := items, map[];
    }

    // ----- Selling -----

    /** Sell from the front of the sorted lots. */
    method SellLots(sorted: seq<InventoryItem>, sold: real) returns (k: nat)
      requires Distinct(sorted)
      modifies this`inventory, sorted
      ensures k == SoldOut(old(Views(sorted)), sold) && k <= |sorted|
      ensures Views(sorted[k..]) == SellFrom(old(Views(sorted)), sold)
      ensures inventory == Without(old(inventory), IdsOf(sorted[..k]))
    {
      hide SellFrom, SoldOut, Without, Views, Distinct;
      ghost var was := Views(sorted);
      var remaining := sold;
      k := 0;
      WithoutNone(inventory);
      assert IdsOf(sorted[..0]) == {};
      assert was[0..] == was;
      while k < |sorted| && remaining > 0.0 && sorted[k].quantity <= remaining
        invariant 0 <= k <= |sorted| == |was|
        invariant SoldOut(was, sold) == k + SoldOut(was[k..], remaining)
        invariant SellFrom(was, sold) == SellFrom(was[k..], remaining)
        invariant inventory == Without(old(inventory), IdsOf(sorted[..k]))
        invariant forall j :: 0 <= j < |sorted| ==> sorted[j].View() == was[j]
      {
        SellStep(was[k..], remaining);
        assert was[k..] == [was[k]] + was[k + 1..];
        remaining := remaining - sorted[k].quantity;
        RemoveItem(sorted[k].id);
        WithoutTwice(old(inventory), IdsOf(sorted[..k]), {sorted[k].id});
        assert sorted[..k + 1] == sorted[..k] + [sorted[k]];
        assert IdsOf(sorted[..k + 1]) == IdsOf(sorted[..k]) + {sorted[k].id};
        k := k + 1;
      }
      SellStep(was[k..], remaining);
      if k < |sorted| && remaining > 0.0 {
        assert was[k..] == [was[k]] + was[k + 1..];
        SellPart(sorted, k, remaining);
      }
      assert forall j :: 0 <= j < |sorted[k..]| ==> Views(sorted[k..])[j] == SellFrom(was[k..], remaining)[j];
    }

    /** The lot after the ones sold whole loses what is still to sell. */
    method SellPart(sorted: seq<InventoryItem>, k: nat, sold: real)
      requires Distinct(sorted) && k < |sorted|
      modifies sorted[k]
      ensures sorted[k].View() == PartlySold(old(sorted[k].View()), sold)
      ensures forall j :: 0 <= j < |sorted| && j != k ==> sorted[j].View() == old(sorted[j].View())
    {
      var lot := sorted[k];
      var left := lot.quantity - sold;
      lot.quantity := left;
      lot.available := left;
      if lot.locked > 0.0 {
        var fromLocked := if sold <= lot.locked then sold else lot.locked;
        lot.locked := if lot.locked - fromLocked >= 0.0 then lot.locked - fromLocked else 0.0;
      }
      assert forall j :: 0 <= j < |sorted| && j != k ==> sorted[j].id != lot.id;
    }

    method RemoveItem(id: string)
      modifies this`inventory
      ensures inventory == Without(old(inventory), {id})
    {
      var kept := [];
      assert Without([], {id}) == [];
      hide Without;
      for i := 0 to |inventory|
        invariant inventory == old(inventory)
        invariant kept + Without(inventory[i..], {id}) == Without(inventory, {id})
      {
        assert inventory[i..] == [inventory[i]] + inventory[i + 1..];
        WithoutFirst(inventory[i], inventory[i + 1..], {id});
        if inventory[i].id != id {
          kept := kept + [inventory[i]];
        }
      }
      inventory := kept;
    }

    /** Sell a quantity of a coin from its lots, the cheapest first. */
    method SellCoin(coin: string, sold: real)
      requires Valid() && coin in coinLots
      modifies this, coinLots[coin]
      ensures Valid()
      ensures coin in coinLots && coinLots == old(coinLots)[coin := coinLots[coin]]
      ensures Views(coinLots[coin]) == Sell(old(Views(coinLots[coin])), sold)
      ensures forall x :: x in inventory <==> x in old(inventory) && (x !in old(coinLots)[coin] || x in coinLots[coin])
    {
      hide Views, Without, SortItems, SellFrom, SoldOut, SortByPrice, Consistent, Distinct;
      var sorted := SortItems(coinLots[coin]);
      SortItemsViews(coinLots[coin]);
      ConsistentLots(inventory, coinLots, coin);
      SortItemsDistinct(coinLots[coin]);
      var k := SellLots(sorted, sold);
      SaleKeepsConsistent(old(inventory), coinLots, coin, k);
      coinLots := coinLots[coin := sorted[k..]];
    }

    method UpdateLotsAfterSell(coin: string, sold: real)
      requires Valid()
      modifies this, if coin in coinLots then coinLots[coin] else []
      ensures Valid()
      ensures coin !in old(coinLots) ==> coinLots == old(coinLots) && inventory == old(inventory)
      ensures coin in old(coinLots) ==> coin in coinLots && coinLots == old(coinLots)[coin := coinLots[coin]]
      ensures coin in old(coinLots) ==> Views(coinLots[coin]) == Sell(old(Views(coinLots[coin])), sold)
      ensures coin in old(coinLots) ==>
        forall x :: x in inventory <==> x in old(inventory) && (x !in old(coinLots)[coin] || x in coinLots[coin])
    {
      hide SellFrom, SoldOut, SortByPrice, Consistent, Distinct;
      if coin !in coinLots || coinLots[coin] == [] {
        assert SortByPrice([]) == [] && SellFrom([], sold) == [] by { NothingToSell(sold); }
        return;
      }
      SellCoin(coin, sold);
    }

    // ----- Locking -----

    method TotalAvailable(coin: string) returns (total: real)
      ensures total == Available(Views(inventory), coin)
    {
      total := 0.0;
      ghost var views := Views(inventory);
      for i := 0 to |inventory|
        invariant total + Available(views[i..], coin) == Available(views, coin)
      {
        assert views[i..][1..] == views[i + 1..];
        if inventory[i].coin == coin {
          total := total + inventory[i].available;
        }
      }
    }

    method TotalLocked(coin: string) returns (total: real)
      ensures total == Locked(Views(inventory), coin)
    {
      total := 0.0;
      ghost var views := Views(inventory);
      for i := 0 to |inventory|
        invariant total + Locked(views[i..], coin) == Locked(views, coin)
      {
        assert views[i..][1..] == views[i + 1..];
        if inventory[i].coin == coin {
          total := total + inventory[i].locked;
        }
      }
    }

    method MoveQuantity(i: nat, amount: real)
      requires Distinct(inventory) && i < |inventory|
      modifies inventory[i]
      ensures inventory[i].View() == Move(old(inventory[i].View()), amount)
      ensures forall j :: 0 <= j < |inventory| && j != i ==> inventory[j].View() == old(inventory[j].View())
    {
      inventory[i].available := inventory[i].available - amount;
      inventory[i].locked := inventory[i].locked + amount;
      assert forall j :: 0 <= j < |inventory| && j != i ==> inventory[j].id != inventory[i].id;
    }

    method LockItems(coin: string, amount: real)
      requires Distinct(inventory)
      modifies inventory
      ensures forall j :: 0 <= j < |inventory| ==>
        |LockFrom(old(Views(inventory)), coin, amount)| == |inventory| &&
        inventory[j].View() == LockFrom(old(Views(inventory)), coin, amount)[j]
    {
      hide LockFrom, Distinct, Views;
      ghost var was := Views(inventory);
      ghost var goal := LockFrom(was, coin, amount);
      LockFromStep(was, coin, amount);
      var left, i := amount, 0;
      assert was[0..] == was && goal[0..] == goal;
      while i < |inventory| && left > 0.0
        invariant 0 <= i <= |inventory| == |was| == |goal|
        invariant goal[i..] == LockFrom(was[i..], coin, left)
        invariant forall j :: 0 <= j < |inventory| ==> inventory[j].View() == if j < i then goal[j] else was[j]
      {
        var item := inventory[i];
        LockFromStep(was[i..], coin, left);
        assert was[i..] == [was[i]] + was[i + 1..] && goal[i..] == [goal[i]] + goal[i + 1..];
        if item.coin == coin && item.available > 0.0 {
          var share := if item.available <= left then item.available else left;
          MoveQuantity(i, share);
          left := left - share;
        }
        i := i + 1;
      }
      LockFromStep(was[i..], coin, left);
      forall j | i <= j < |inventory| ensures goal[j] == was[j] {
        assert goal[j] == goal[i..][j - i] && was[j] == was[i..][j - i];
      }
    }

    /** Lock what a new sell order sells, or the budget of a new buy order. */
    method LockQuantity(coin: string, amount: real)
      requires Valid()
      modifies inventory
      ensures Views(inventory) == Lock(old(Views(inventory)), coin, amount)
    {
      hide LockFrom, Available;
      ConsistentIsDistinct(inventory, coinLots);
      var total := TotalAvailable(coin);
      LockFromStep(Views(inventory), coin, amount);
      if total >= amount {
        LockItems(coin, amount);
      }
    }

    method UnlockItems(coin: string, amount: real)
      requires Distinct(inventory)
      modifies inventory
      ensures forall j :: 0 <= j < |inventory| ==>
        |UnlockFrom(old(Views(inventory)), coin, amount)| == |inventory| &&
        inventory[j].View() == UnlockFrom(old(Views(inventory)), coin, amount)[j]
    {
      hide UnlockFrom, Distinct, Views;
      ghost var was := Views(inventory);
      ghost var goal := UnlockFrom(was, coin, amount);
      UnlockFromStep(was, coin, amount);
      var left, i := amount, 0;
      assert was[0..] == was && goal[0..] == goal;
      while i < |inventory| && left > 0.0
        invariant 0 <= i <= |inventory| == |was| == |goal|
        invariant goal[i..] == UnlockFrom(was[i..], coin, left)
        invariant forall j :: 0 <= j < |inventory| ==> inventory[j].View() == if j < i then goal[j] else was[j]
      {
        var item := inventory[i];
        UnlockFromStep(was[i..], coin, left);
        assert was[i..] == [was[i]] + was[i + 1..] && goal[i..] == [goal[i]] + goal[i + 1..];
        if item.coin == coin && item.locked > 0.0 {
          var share := if item.locked <= left then item.locked else left;
          MoveQuantity(i, -share);
          left := left - share;
        }
        i := i + 1;
      }
      UnlockFromStep(was[i..], coin, left);
      forall j | i <= j < |inventory| ensures goal[j] == was[j] {
        assert goal[j] == goal[i..][j - i] && was[j] == was[i..][j - i];
      }
    }

    /** Unlock what a cancelled position held, as far as it is locked. */
    method UnlockQuantity(coin: string, amount: real)
      requires Valid()
      modifies inventory
      ensures Views(inventory) == Unlock(old(Views(inventory)), coin, amount)
    {
      hide UnlockFrom, Locked;
      ConsistentIsDistinct(inventory, coinLots);
      var total := TotalLocked(coin);
      var left := if total < amount then total else amount;
      UnlockFromStep(Views(inventory), coin, left);
      UnlockItems(coin, left);
    }

    // ----- Synchronising -----

    method HandleAccountPosition(balances: seq<Balance>)
      requires Valid()
      modifies inventory
      ensures Views(inventory) == Sync(old(Views(inventory)), BalanceMap(balances))
      ensures FollowsList(old(Views(inventory)), balances, Views(inventory))
    {
      hide FollowsList, Held;
      var exchange: map<string, Balance> := map[];
      for i := 0 to |balances|
        invariant exchange == BalanceMap(balances[..i])
      {
        exchange := exchange[balances[i].coin := balances[i]];
        assert balances[..i + 1][..i] == balances[..i];
      }
      assert balances[..|balances|] == balances;
      var coins := CoinsInOrder();
      ghost var was := Views(inventory);
      for i := 0 to |coins|
        invariant forall j :: 0 <= j < |inventory| ==>
          inventory[j].View() == if inventory[j].coin in coins[..i] then SyncLot(was, exchange, was[j]) else was[j]
      {
        if coins[i] in exchange {
          SyncCoin(was, exchange, coins, i);
        }
        assert coins[..i + 1] == coins[..i] + [coins[i]];
      }
      assert coins[..|coins|] == coins;
      SyncFollowsList(was, balances);
    }

    /** Every coin of the inventory once, in the order of first appearance. */
    method CoinsInOrder() returns (coins: seq<string>)
      ensures forall x <- inventory :: x.coin in coins
      ensures forall i, j :: 0 <= i < j < |coins| ==> coins[i] != coins[j]
    {
      coins := [];
      for i := 0 to |inventory|
        invariant forall j :: 0 <= j < i ==> inventory[j].coin in coins
        invariant forall a, b :: 0 <= a < b < |coins| ==> coins[a] != coins[b]
      {
        if inventory[i].coin !in coins {
          coins := coins + [inventory[i].coin];
        }
      }
    }

    method SyncCoin(ghost was: seq<Lot>, exchange: map<string, Balance>, coins: seq<string>, i: nat)
      requires Valid() && |was| == |inventory| && i < |coins| && coins[i] in exchange && coins[i] !in coins[..i]
      requires forall j :: 0 <= j < |inventory| ==> was[j].coin == inventory[j].coin
      requires forall j :: 0 <= j < |inventory| ==>
        inventory[j].View() == if inventory[j].coin in coins[..i] then SyncLot(was, exchange, was[j]) else was[j]
      modifies inventory
      ensures forall j :: 0 <= j < |inventory| ==>
        inventory[j].View() ==
          if inventory[j].coin in coins[..i] || inventory[j].coin == coins[i]
          then SyncLot(was, exchange, was[j]) else was[j]
    {
      var coin := coins[i];
      var total := 0.0;
      for j := 0 to |inventory|
        invariant total + Held(was[j..], coin) == Held(was, coin)
      {
        assert was[j..][1..] == was[j + 1..];
        if inventory[j].coin == coin {
          total := total + inventory[j].quantity;
        }
      }
      if total > 0.0 {
        var balance := exchange[coin];
        for j := 0 to |inventory|
          invariant forall m :: 0 <= m < |inventory| ==>
            inventory[m].View() ==
              if inventory[m].coin in coins[..i] || (m < j && inventory[m].coin == coin)
              then SyncLot(was, exchange, was[m]) else was[m]
        {
          var item := inventory[j];
          if item.coin == coin {
            var proportion := item.quantity / total;
            item.available := Cost(proportion, balance.free);
            item.locked := Cost(proportion, balance.locked);
          }
        }
      }
    }
  }
}
