/**
 What each event makes of each position, in terms of prices, percentages and the position's
 own record: which order is placed or cancelled, at which price and for how much.
 */
module BuyDipEffects {
  import opened Options
  import opened Money
  import opened Budgets
  import opened BuyDipPositions
  import opened BuyDipEngine
  import opened BuyDipInvariants
  import opened BuyDipChanges
  import opened BuyDipSteps
  import opened BuyDipEvents
  import opened BuyDipRuns

  // ----- Sales -----

  /** A missing sale is placed at the top once the price is near it, an existing one is cancelled
      once the price is far from it. */
  predicate SaleManaged(c: Config, id: PositionId, p: Position, price: real, q: Position)
  {
    var top := if p.confirmedTop.Some? then p.confirmedTop.value else 0.0;
    if p.sellOrder.None? then
      q == if (top - price) * 100.0 <= c.sellPlacement * top
           then p.(sellOrder := Some(OrderInfo(SellOf(id), top, p.totalQuantity, -1, New, 0.0, None)))
           else p
    else
      q == if (top - price) * 100.0 >= c.sellCancellation * top then p.(sellOrder := None) else p
  }

  /** A share of the top, compared with a percentage. */
  lemma PercentOfTop(top: real, price: real, percent: real)
    requires top > 0.0
    ensures DistanceFromTop(top, price) <= percent <==> (top - price) * 100.0 <= percent * top
    ensures DistanceFromTop(top, price) >= percent <==> (top - price) * 100.0 >= percent * top
  {
    var ratio := Ratio(top - price, top);
    RatioTimes(top - price, top);
    assert (ratio * 100.0) * top == (top - price) * 100.0;
    var gap := ratio * 100.0 - percent;
    SignOfFactor(gap, top);
    assert gap * top == (top - price) * 100.0 - percent * top;
  }

  /** Only sales change, and those of `ids` as `SaleManaged` says. */
  ghost predicate SalesManaged(s: Engine, ids: seq<PositionId>, price: real, t: Engine)
  {
    && t == s.(positions := t.positions, orderOwner := t.orderOwner)
    && t.positions.Keys == s.positions.Keys
    && (forall id :: id in s.positions ==>
          if id in ids then SaleManaged(s.config, id, s.positions[id], price, t.positions[id])
          else t.positions[id] == s.positions[id])
  }

  lemma OneSaleManaged(s: Engine, id: PositionId, price: real, q: Position, t: Engine)
    requires id in s.positions && SaleManaged(s.config, id, s.positions[id], price, q)
    requires t == s.(positions := s.positions[id := q], orderOwner := t.orderOwner)
    ensures SalesManaged(s, [id], price, t)
  {
    hide SaleManaged;
  }

  lemma ManagesMissingSale(s: Engine, id: PositionId, price: real)
    requires Inv(s) && id in s.positions && s.positions[id].state == Active && s.positions[id].sellOrder.None?
    ensures SalesManaged(s, [id], price, ManageSell(s, id, price))
  {
    hide Inv, DistanceFromTop, SalesManaged;
    InvFacts(s, id);
    var p := s.positions[id];
    PercentOfTop(p.confirmedTop.value, price, s.config.sellPlacement);
    var t := ManageSell(s, id, price);
    assert s.positions[id := p] == s.positions;
    OneSaleManaged(s, id, price, t.positions[id], t);
  }

  lemma ManagesExistingSale(s: Engine, id: PositionId, price: real)
    requires Inv(s) && id in s.positions && s.positions[id].state == Active && s.positions[id].sellOrder.Some?
    ensures SalesManaged(s, [id], price, ManageSell(s, id, price))
  {
    hide Inv, DistanceFromTop, SalesManaged;
    InvFacts(s, id);
    var p := s.positions[id];
    PercentOfTop(p.confirmedTop.value, price, s.config.sellCancellation);
    SellOrderIsOwned(s, id);
    var t := ManageSell(s, id, price);
    assert s.positions[id := p] == s.positions;
    OneSaleManaged(s, id, price, t.positions[id], t);
  }

  lemma ManagedFirst(s: Engine, ids: seq<PositionId>, price: real, s1: Engine, t: Engine)
    requires ids != [] && ids[0] in s.positions && EachOnce(ids)
    requires SalesManaged(s, [ids[0]], price, s1) && SalesManaged(s1, ids[1..], price, t)
    ensures SalesManaged(s, ids, price, t)
  {
    hide SaleManaged;
    assert ids == [ids[0]] + ids[1..];
    assert ids[0] !in ids[1..];
  }

  lemma {:induction false} ManagesSales(s: Engine, ids: seq<PositionId>, price: real)
    requires Inv(s) && (forall id <- ids :: id in s.positions && s.positions[id].state == Active) && EachOnce(ids)
    ensures SalesManaged(s, ids, price, ManageSells(s, ids, price))
    decreases ids
  {
    hide Inv, SaleManaged, ManageSell, Good;
    if ids != [] {
      assert ids[0] in ids;
      if s.positions[ids[0]].sellOrder.None? {
        ManagesMissingSale(s, ids[0], price);
      } else {
        ManagesExistingSale(s, ids[0], price);
      }
      ManageSellKeeps(s, ids[0], price);
      var s1 := ManageSell(s, ids[0], price);
      GoodInv(s, s1);
      forall id | id in ids[1..] ensures id in s1.positions && s1.positions[id].state == Active {
        var k :| 0 <= k < |ids[1..]| && ids[1..][k] == id;
        assert ids[k + 1] == id && id in ids;
      }
      ManagesSales(s1, ids[1..], price);
      ManagedFirst(s, ids, price, s1, ManageSells(s1, ids[1..], price));
    }
  }

  lemma DistinctPrepend(id: PositionId, rest: seq<PositionId>)
    requires forall k :: 0 <= k < |rest| ==> rest[k] != id
    requires EachOnce(rest)
    ensures EachOnce([id] + rest)
  {
  }

  lemma {:induction false} InStateDistinct(ps: map<PositionId, Position>, ids: seq<PositionId>, st: PositionState)
    requires EachOnce(ids)
    ensures EachOnce(InState(ps, ids, st))
    decreases ids
  {
    if ids != [] {
      var rest := InState(ps, ids[1..], st);
      InStateDistinct(ps, ids[1..], st);
      assert forall k :: 0 <= k < |ids[1..]| ==> ids[1..][k] == ids[k + 1];
      assert ids[0] !in ids[1..];
      assert forall k :: 0 <= k < |rest| ==> rest[k] in rest;
      assert forall k :: 0 <= k < |rest| ==> rest[k] != ids[0];
      DistinctPrepend(ids[0], rest);
    }
  }

  /** The positions of a symbol in one state, each once. */
  lemma StateOfSymbol(s: Engine, symbol: string, st: PositionState)
    requires IndexExact(s)
    ensures var r := InState(s.positions, Ids(s, symbol), st);
            && (forall id :: id in r <==> id in s.positions && id.symbol == symbol && s.positions[id].state == st)
            && EachOnce(r)
  {
    InStateDistinct(s.positions, Ids(s, symbol), st);
  }

  /** A ticker places and cancels exactly the sales of its symbol's active positions whose distance
      from the top asks for it, and does nothing else. */
  lemma TickerManagesSales(s: Engine, symbol: string, price: real)
    requires Inv(s)
    ensures var t := Ticker(s, symbol, price);
            && Inv(t) && t == s.(positions := t.positions, orderOwner := t.orderOwner)
            && t.positions.Keys == s.positions.Keys
            && (forall id :: id in s.positions ==>
                  if id.symbol == symbol && s.positions[id].state == Active
                  then SaleManaged(s.config, id, s.positions[id], price, t.positions[id])
                  else t.positions[id] == s.positions[id])
  {
    var ids := InState(s.positions, Ids(s, symbol), Active);
    StateOfSymbol(s, symbol, Active);
    TickerKeeps(s, symbol, price);
    hide Inv, InState, Ids, SaleManaged;
    ManagesSales(s, ids, price);
  }

  // ----- Buy orders -----

  /** The order that makes `q` of `p`: new, at that price, for the budget's percentage of what was
      available, which is locked for it; without enough budget there is none. */
  predicate Orders(p: Position, id: OrderId, price: real, b: Budget, q: Position, b': Budget)
  {
    if Affords(b) then
      && |q.buyOrders| == |p.buyOrders| + 1
      && var o := q.buyOrders[|p.buyOrders|];
         && o == OrderInfo(id, price, o.quantity, p.nextLevel, New, 0.0, None)
         && q == p.(buyOrders := p.buyOrders + [o], pending := Some(|p.buyOrders|))
         && 100.0 * Cost(price, o.quantity) == b.available * b.percentage
         && b' == b.(available := b.available - Cost(price, o.quantity), locked := b.locked + Cost(price, o.quantity))
    else
      q == p && b' == b
  }

  lemma PlacesOrder(s: Engine, id: PositionId, price: real, order: OrderId)
    requires BudgetOk(s.budget) && id in s.positions && CanPlace(s.positions[id]) && price > 0.0
    ensures var t := PlaceOrder(s, id, price, order);
            && id in t.positions
            && Orders(s.positions[id], order, price, s.budget, t.positions[id], t.budget)
            && t == s.(positions := s.positions[id := t.positions[id]], budget := t.budget,
                       orderOwner := if Affords(s.budget) then s.orderOwner[order := id] else s.orderOwner)
  {
    hide OrderSize, Cost, Ratio;
    OrderSizeIff(s.budget);
    if OrderSize(s.budget).Some? {
      CostOfShare(OrderSize(s.budget).value, price);
    } else {
      assert s.positions[id := s.positions[id]] == s.positions;
    }
  }

  // ----- Fills -----

  /** What is pending once the level below has filled: an order for the level that is next, at its
      distance under the top, for the percentage of what was available; without such a level or
      the budget nothing. */
  predicate NextLevelOrdered(c: Config, id: PositionId, b: Budget, q: Position, b': Budget)
  {
    var n := q.nextLevel;
    if n < |c.distances| && Affords(b) then
      && PendingOrder(q).Some? && q.topPrice.Some?
      && var o := PendingOrder(q).value;
      && o.id == Dca(id, n) && o.level == n && o.status == New
      && o.price == q.topPrice.value * (1.0 - c.distances[n] / 100.0)
      && 100.0 * Cost(o.price, o.quantity) == b.available * b.percentage
      && b' == b.(available := b.available - Cost(o.price, o.quantity), locked := b.locked + Cost(o.price, o.quantity))
    else
      PendingOrder(q).None? && b' == b
  }

  lemma ActiveTop(s: Engine, id: PositionId)
    requires Inv(s) && id in s.positions && s.positions[id].state == Active
    ensures s.config.Valid() && BudgetOk(s.budget)
    ensures var p := s.positions[id];
            p.topPrice.Some? && p.topPrice.value > 0.0 && p.confirmedTop == p.topPrice
  {
    InvFacts(s, id);
  }

  lemma OrdersNextLevel(s: Engine, id: PositionId)
    requires Inv(s) && id in s.positions && s.positions[id].state == Active && CanPlace(s.positions[id])
    ensures var t := PlaceNextLevel(s, id);
            && id in t.positions && t.positions == s.positions[id := t.positions[id]]
            && var p, q := s.positions[id], t.positions[id];
            && q == p.(buyOrders := q.buyOrders, pending := q.pending)
            && NextLevelOrdered(s.config, id, s.budget, q, t.budget)
  {
    hide Inv, PlaceOrder, Cost, Affords;
    ActiveTop(s, id);
    var p := s.positions[id];
    if p.nextLevel < |s.config.distances| {
      LevelUnderCeiling(s.config, p.topPrice.value, p.nextLevel);
      PlacesOrder(s, id, LevelPrice(p.topPrice.value, s.config.distances[p.nextLevel]), Dca(id, p.nextLevel));
    } else {
      assert s.positions[id := p] == s.positions;
    }
  }

  lemma PlaceholderIsExtra(s: Engine, symbol: string, now: real)
    requires StampedId(symbol, Milliseconds(now)) !in s.positions
    ensures var t := CreatePlaceholder(s, symbol, now);
            && t.budget == s.budget && t.config == s.config
            && (forall j :: j in s.positions ==> j in t.positions && t.positions[j] == s.positions[j])
            && (forall j :: j in t.positions && j !in s.positions ==>
                  j.symbol == symbol && t.positions[j] == Fresh(symbol))
  {
  }

  /** A filled buy order is followed by the next level's: at its distance under the confirmed top,
      for the percentage of what is available; without a further level or the budget by none. */
  lemma FillOrdersNextLevel(s: Engine, order: OrderId, price: real, quantity: real, now: real)
    requires Inv(s) && Allowed(s, OnBuyFill(order, price, quantity, now)) && order in s.orderOwner && !order.SellOf?
    ensures order.owner in s.positions
    ensures var id, t := order.owner, BuyFilled(s, order, price, quantity, now);
            && id in t.positions
            && var p, q := s.positions[id], t.positions[id];
            && q.state == Active && q.confirmedTop == q.topPrice == p.topPrice && q.nextLevel == p.nextLevel + 1
            && q.totalInvested == p.totalInvested + Cost(price, quantity)
            && q.totalQuantity == p.totalQuantity + quantity
            && NextLevelOrdered(s.config, id, s.budget, q, t.budget)
            && (forall j :: j in s.positions && j != id ==> j in t.positions && t.positions[j] == s.positions[j])
            && (forall j :: j in t.positions && j !in s.positions ==>
                  p.state == PotentialTop && j.symbol == id.symbol && t.positions[j] == Fresh(id.symbol))
  {
    hide Inv, Fill, NextLevelOrdered, PlaceNextLevel, CreatePlaceholder, PositionOk, Live, Cost;
    BuyOrderIsPending(s, order);
    var id := order.owner;
    var p := s.positions[id];
    InvFacts(s, id);
    FillOk(s.config, id, p, price, quantity);
    BookFillKeeps(s, id, price, quantity);
    FilledFacts(s, id, price, quantity);
    var s1 := BookFill(s, order, id, Fill(p, order, price, quantity).value);
    if p.state == PotentialTop {
      PlaceholderKeeps(s1, id.symbol, now);
      PlaceholderIsExtra(s1, id.symbol, now);
    }
    var s2 := if p.state == PotentialTop then CreatePlaceholder(s1, id.symbol, now) else s1;
    OrdersNextLevel(s2, id);
    ActiveTop(s2, id);
  }

  // ----- Candles -----

  /** The candle's high tops `top` by at least the configured percentage. */
  predicate IsNewHigh(c: Config, top: real, high: real)
  {
    high > top && (high - top) * 100.0 >= c.minDelta * top
  }

  /** The orders of a position, the pending one cancelled. */
  function Withdrawn(p: Position): seq<OrderInfo>
  {
    if p.pending.Some? && p.pending.value < |p.buyOrders|
    then p.buyOrders[p.pending.value := p.buyOrders[p.pending.value].(status := Canceled)]
    else p.buyOrders
  }

  /** What was pending is cancelled and its money is free again, the top is the new high, the
      cooldown starts, and the first level under the new top is ordered. */
  predicate TopRaised(c: Config, id: PositionId, p: Position, candle: Candle, now: real, b: Budget, q: Position,
                      b': Budget)
  {
    && c.distances != []
    && var r := p.(buyOrders := Withdrawn(p), pending := None, topPrice := Some(candle.high), justInvalidated := true,
                   lastInvalidation := candle.timestamp, cooldownUntil := Some(now + c.cooldown));
       var free := b.(available := b.available + PendingCost(p), locked := b.locked - PendingCost(p));
       Orders(r, DcaAt(id, 0, (now * 1000.0).Floor), candle.high * (1.0 - c.distances[0] / 100.0), free, q, b')
  }

  lemma WaitingFacts(s: Engine, id: PositionId)
    requires Inv(s) && id in s.positions && s.positions[id].state == PotentialTop
    ensures s.config.Valid() && BudgetOk(s.budget)
    ensures var p := s.positions[id];
            p.topPrice.Some? && p.topPrice.value > 0.0 && p.nextLevel == 0 && HasTop(p) && p.symbol == id.symbol
    ensures PendingOrder(s.positions[id]).None? <==> CanPlace(s.positions[id])
  {
    InvFacts(s, id);
  }

  lemma SignificantIff(c: Config, p: Position, high: real)
    requires p.topPrice.Some? && p.topPrice.value > 0.0
    ensures Significant(c, p, high) <==> (high - p.topPrice.value) * 100.0 >= c.minDelta * p.topPrice.value
  {
    var top := p.topPrice.value;
    var gain := PercentGain(top, high);
    RatioTimes(high - top, top);
    assert gain * top == (high - top) * 100.0;
    SignOfFactor(gain - c.minDelta, top);
    assert (gain - c.minDelta) * top == (high - top) * 100.0 - c.minDelta * top;
  }

  lemma CancelsPending(s: Engine, id: PositionId)
    requires Inv(s) && id in s.positions
    ensures var t := HandlerCancel(s, id);
            var p := s.positions[id];
            && t.positions == s.positions[id := t.positions[id]]
            && t.positions[id] == p.(pending := None, buyOrders := t.positions[id].buyOrders)
            && t.positions[id].buyOrders == Withdrawn(p)
            && t.budget == s.budget.(available := s.budget.available + PendingCost(p),
                                     locked := s.budget.locked - PendingCost(p))
            && t.tasks == s.tasks && t.symbolIds == s.symbolIds && t.config == s.config
  {
    InvFacts(s, id);
    if PendingOrder(s.positions[id]).Some? {
      PendingCostPositive(s, id);
    } else {
      assert s.positions[id := s.positions[id]] == s.positions;
    }
  }

  lemma InvalidateRaises(s: Engine, id: PositionId, candle: Candle, now: real)
    requires Inv(s) && id in s.positions && s.positions[id].state == PotentialTop && candle.high > 0.0
    requires Significant(s.config, s.positions[id], candle.high)
    ensures var t := Invalidate(s, id, candle.high, candle.timestamp, now);
            && id in t.positions && t.positions == s.positions[id := t.positions[id]]
            && TopRaised(s.config, id, s.positions[id], candle, now, s.budget, t.positions[id], t.budget)
            && t.positions[id].state == PotentialTop && t.positions[id].justInvalidated
            && t.tasks == s.tasks && t.symbolIds == s.symbolIds
  {
    hide Inv, Good, HandlerCancel, PlaceOrder, Significant, PendingCost;
    WaitingFacts(s, id);
    ReleasePendingKeeps(s, id);
    CancelsPending(s, id);
    var s1 := HandlerCancel(s, id);
    GoodInv(s, s1);
    WaitingFacts(s1, id);
    var s2 := RaiseTop(s1, id, candle.high, candle.timestamp, now);
    LevelUnderCeiling(s.config, candle.high, 0);
    PlacesOrder(s2, id, LevelPrice(candle.high, s.config.distances[0]), DcaAt(id, 0, Milliseconds(now)));
  }

  lemma OnlyOne(ids: seq<PositionId>, id: PositionId)
    requires EachOnce(ids) && id in ids && forall j <- ids :: j == id
    ensures ids == [id]
  {
    forall k | 0 <= k < |ids| ensures ids[k] == id {
      assert ids[k] in ids;
    }
    assert ids[0] == id && ids[|ids| - 1] == id;
  }

  /** A waiting position is the only open one of its symbol. */
  lemma OnlyWaiting(s: Engine, symbol: string, id: PositionId)
    requires Inv(s) && OneOpen(s) && id in s.positions && id.symbol == symbol && s.positions[id].state == PotentialTop
    ensures InState(s.positions, Ids(s, symbol), PotentialTop) == [id]
    ensures InState(s.positions, Ids(s, symbol), Watching) == []
  {
    StateOfSymbol(s, symbol, PotentialTop);
    StateOfSymbol(s, symbol, Watching);
    hide Inv, InState, Ids, EachOnce;
    assert OpenAt(s, symbol, id);
    forall j | j in s.positions && j.symbol == symbol && IsOpen(s.positions[j]) ensures j == id {
      assert OpenAt(s, symbol, j);
    }
    hide OneOpen;
    OnlyOne(InState(s.positions, Ids(s, symbol), PotentialTop), id);
    HasMember(InState(s.positions, Ids(s, symbol), Watching));
  }

  lemma {:induction false} ClearsFlags(s: Engine, ids: seq<PositionId>)
    ensures var t := ClearFlags(s, ids);
            && t == s.(positions := t.positions) && t.positions.Keys == s.positions.Keys
            && (forall j :: j in s.positions ==>
                  t.positions[j] == if j in ids then s.positions[j].(justInvalidated := false) else s.positions[j])
    decreases ids
  {
    if ids != [] {
      assert ids == [ids[0]] + ids[1..];
      if ids[0] in s.positions {
        ClearsFlags(Put(s, ids[0], s.positions[ids[0]].(justInvalidated := false)), ids[1..]);
      } else {
        ClearsFlags(s, ids[1..]);
      }
    }
  }

  /** The flags of the symbol's positions are down, the other positions but `id` as they were. */
  predicate OthersCleared(s: Engine, symbol: string, id: PositionId, t: Engine)
  {
    t.positions.Keys == s.positions.Keys &&
    forall j :: j in s.positions && j != id ==>
      t.positions[j] == if j.symbol == symbol then s.positions[j].(justInvalidated := false) else s.positions[j]
  }

  lemma NewHighAtWaiting(s: Engine, symbol: string, candle: Candle, now: real, id: PositionId)
    requires Inv(s) && OneOpen(s) && id in s.positions && id.symbol == symbol && s.positions[id].state == PotentialTop
    ensures s.positions[id].topPrice.Some?
    ensures NewHigh(s, symbol, candle, now) ==
      if IsNewHigh(s.config, s.positions[id].topPrice.value, candle.high)
      then Invalidate(s, id, candle.high, candle.timestamp, now)
      else s
  {
    hide Inv, OneOpen, InState, Significant;
    OnlyWaiting(s, symbol, id);
    WaitingFacts(s, id);
    SignificantIff(s.config, s.positions[id], candle.high);
    var ids := [id];
    var t := Invalidate(s, id, candle.high, candle.timestamp, now);
    assert ids[1..] == [];
    assert InvalidateAll(t, [], candle.high, candle.timestamp, now) == t;
    assert Beaten(s.positions, ids, candle.high) <==> candle.high > s.positions[id].topPrice.value by {
      assert ids[0] == id;
    }
  }

  /** The candle leaves a delayed placement for a position that waits without a pending order and
      was not replaced before: neither by this candle, nor within the cooldown, nor by a later one. */
  predicate LeavesDelayed(p: Position, candle: Candle, now: real)
  {
    && p.pending.None? && !p.justInvalidated
    && (p.cooldownUntil.Some? ==> now >= p.cooldownUntil.value)
    && (p.lastInvalidation.Some? && candle.timestamp.Some? ==> candle.timestamp.value > p.lastInvalidation.value)
  }

  function Delayed(id: PositionId, p: Position, candle: Candle, now: real, price: real): multiset<Task>
  {
    if LeavesDelayed(p, candle, now) then multiset{Task(id, price, Dca(id, 0))} else multiset{}
  }

  lemma ReadyIff(p: Position, candle: Candle, now: real)
    requires HasTop(p) && p.nextLevel == 0
    ensures ReadyToSchedule(p, candle, now) <==> LeavesDelayed(p, candle, now)
  {
  }

  lemma IdsOfSymbol(s: Engine, symbol: string)
    requires Inv(s)
    ensures forall j :: j in Ids(s, symbol) <==> j in s.positions && j.symbol == symbol
  {
  }

  lemma NotDelayed(id: PositionId, p: Position, candle: Candle, now: real, price: real)
    requires p.justInvalidated || p.pending.Some?
    ensures Delayed(id, p, candle, now, price) == multiset{}
  {
  }

  /** After the new high a rising pattern finds the one open position waiting. */
  lemma RisingWaits(s: Engine, symbol: string, candle: Candle, id: PositionId)
    requires Inv(s) && OneOpen(s) && id in s.positions && id.symbol == symbol && s.positions[id].state == PotentialTop
    ensures !RisingDecision(s, symbol, candle).NoTimestamp? && Rising(s, symbol, candle) == s
  {
    OnlyWaiting(s, symbol, id);
    assert OpenAt(s, symbol, id);
    OpenPositionDecides(s, symbol, candle, id);
    hide Inv, OneOpen, InState, Ids;
  }

  lemma SchedulesIt(s: Engine, candle: Candle, now: real, id: PositionId)
    requires id in s.positions && HasTop(s.positions[id]) && s.positions[id].nextLevel == 0 && s.config.distances != []
    ensures var price := LevelPrice(s.positions[id].topPrice.value, s.config.distances[0]);
      ScheduleOne(s, id, candle, now) == s.(tasks := s.tasks + Delayed(id, s.positions[id], candle, now, price))
  {
    hide LevelPrice;
    ReadyIff(s.positions[id], candle, now);
    assert s.tasks + multiset{} == s.tasks;
  }

  lemma SchedulesOne(s: Engine, symbol: string, candle: Candle, now: real, id: PositionId)
    requires Inv(s) && OneOpen(s) && id in s.positions && id.symbol == symbol && s.positions[id].state == PotentialTop
    ensures s.positions[id].topPrice.Some? && s.config.distances != []
    ensures var price := LevelPrice(s.positions[id].topPrice.value, s.config.distances[0]);
      ScheduleAll(s, InState(s.positions, Ids(s, symbol), PotentialTop), candle, now)
        == s.(tasks := s.tasks + Delayed(id, s.positions[id], candle, now, price))
  {
    hide Inv, OneOpen, InState, Ids, ScheduleOne, Delayed, LevelPrice;
    OnlyWaiting(s, symbol, id);
    WaitingFacts(s, id);
    SchedulesIt(s, candle, now, id);
    var t := ScheduleOne(s, id, candle, now);
    assert [id][1..] == [];
    assert ScheduleAll(t, [], candle, now) == t;
  }

  /** What is left of a candle after the new high. */
  lemma RestOfCandle(s: Engine, symbol: string, candle: Candle, rising: bool, now: real, id: PositionId)
    requires var s1 := NewHigh(s, symbol, candle, now);
      Inv(s1) && OneOpen(s1) && id in s1.positions && id.symbol == symbol && s1.positions[id].state == PotentialTop
    ensures var s1 := NewHigh(s, symbol, candle, now);
      s1.positions[id].topPrice.Some? && s1.config.distances != []
    ensures var s1, t := NewHigh(s, symbol, candle, now), CandleClosed(s, symbol, candle, rising, now);
      var price := LevelPrice(s1.positions[id].topPrice.value, s1.config.distances[0]);
      t.tasks == s1.tasks + Delayed(id, s1.positions[id], candle, now, price)
    ensures var s1, t := NewHigh(s, symbol, candle, now), CandleClosed(s, symbol, candle, rising, now);
            && t == s1.(positions := t.positions, tasks := t.tasks)
            && t.positions.Keys == s1.positions.Keys
            && (forall j :: j in s1.positions ==>
                  t.positions[j] == if j.symbol == symbol then s1.positions[j].(justInvalidated := false)
                                    else s1.positions[j])
  {
    hide Inv, OneOpen, NewHigh, Rising, RisingDecision, ScheduleAll, ClearFlags, InState, Delayed;
    var s1 := NewHigh(s, symbol, candle, now);
    RisingWaits(s1, symbol, candle, id);
    SchedulesOne(s1, symbol, candle, now, id);
    IdsOfSymbol(s1, symbol);
    var s3 := ScheduleAll(s1, InState(s1.positions, Ids(s1, symbol), PotentialTop), candle, now);
    ClearsFlags(s3, Ids(s3, symbol));
  }

  predicate IsFirstLevel(c: Config, p: Position, price: real)
  {
    p.topPrice.Some? && c.distances != [] && price == p.topPrice.value * (1.0 - c.distances[0] / 100.0)
  }

  /** The only delayed placement a candle may leave is for the first level under the present top. */
  ghost predicate MayDelay(c: Config, id: PositionId, p: Position, candle: Candle, now: real, before: multiset<Task>,
                     after: multiset<Task>)
  {
    exists price :: IsFirstLevel(c, p, price) && after == before + Delayed(id, p, candle, now, price)
  }

  lemma DelaysFirstLevel(c: Config, id: PositionId, p: Position, candle: Candle, now: real, before: multiset<Task>)
    requires p.topPrice.Some? && c.distances != []
    ensures MayDelay(c, id, p, candle, now, before,
                     before + Delayed(id, p, candle, now, LevelPrice(p.topPrice.value, c.distances[0])))
  {
    hide Delayed;
    assert IsFirstLevel(c, p, LevelPrice(p.topPrice.value, c.distances[0]));
  }

  /** What a candle does to the waiting position of its symbol: a new high raises its top and
      replaces its order; otherwise all that may come of it is a delayed placement. */
  lemma CandleAtWaiting(s: Engine, symbol: string, candle: Candle, rising: bool, now: real, id: PositionId)
    requires Inv(s) && OneOpen(s) && candle.high > 0.0
    requires id in s.positions && id.symbol == symbol && s.positions[id].state == PotentialTop
    ensures s.positions[id].topPrice.Some? && s.config.distances != []
    ensures var t := CandleClosed(s, symbol, candle, rising, now);
            && id in t.positions && OthersCleared(s, symbol, id, t)
            && var p, q := s.positions[id], t.positions[id];
            && q.state == PotentialTop && !q.justInvalidated
            && if IsNewHigh(s.config, p.topPrice.value, candle.high) then
                 && TopRaised(s.config, id, p, candle, now, s.budget, q.(justInvalidated := true), t.budget)
                 && t.tasks == s.tasks
               else
                 && q == p.(justInvalidated := false) && t.budget == s.budget
                 && MayDelay(s.config, id, p, candle, now, s.tasks, t.tasks)
  {
    hide Inv, OneOpen, NewHigh, CandleClosed, Invalidate, TopRaised, Good, Follows, KeepsLedger, Delayed, LevelPrice,
         MayDelay;
    WaitingFacts(s, id);
    NewHighAtWaiting(s, symbol, candle, now, id);
    NewHighKeeps(s, symbol, candle, now);
    var s1 := NewHigh(s, symbol, candle, now);
    GoodIsKept(s, s1);
    SignificantIff(s.config, s.positions[id], candle.high);
    if IsNewHigh(s.config, s.positions[id].topPrice.value, candle.high) {
      InvalidateRaises(s, id, candle, now);
    }
    RestOfCandle(s, symbol, candle, rising, now, id);
    var price := LevelPrice(s1.positions[id].topPrice.value, s1.config.distances[0]);
    if IsNewHigh(s.config, s.positions[id].topPrice.value, candle.high) {
      NotDelayed(id, s1.positions[id], candle, now, price);
      assert s.tasks + multiset{} == s.tasks;
    } else {
      DelaysFirstLevel(s.config, id, s.positions[id], candle, now, s.tasks);
    }
  }

  lemma OpensPosition(s: Engine, id: PositionId, high: real)
    requires s.config.Valid() && BudgetOk(s.budget) && high > 0.0 && id in s.positions && CanPlace(s.positions[id])
    requires s.positions[id].nextLevel == 0
    ensures var t := OpenAtTop(s, id, high);
            && id in t.positions && t.positions == s.positions[id := t.positions[id]]
            && Orders(s.positions[id].(topPrice := Some(high), state := PotentialTop), Dca(id, 0),
                      high * (1.0 - s.config.distances[0] / 100.0), s.budget, t.positions[id], t.budget)
            && t.config == s.config && t.tasks == s.tasks && t.symbolIds == s.symbolIds && t.scheduled == s.scheduled
  {
    hide PlaceOrder, Affords;
    LevelUnderCeiling(s.config, high, 0);
    var s1 := Put(s, id, WithTop(s.positions[id], high));
    PlacesOrder(s1, id, LevelPrice(high, s.config.distances[0]), Dca(id, 0));
  }

  /** The end of a candle that put position `id` at its high and placed its order. */
  lemma AfterOpening(s: Engine, symbol: string, candle: Candle, now: real, id: PositionId)
    requires Inv(s) && OneOpen(s) && id in s.positions && id.symbol == symbol && s.positions[id].state == PotentialTop
    requires s.positions[id].pending.Some?
    ensures var s3 := ScheduleAll(s, InState(s.positions, Ids(s, symbol), PotentialTop), candle, now);
            var t := ClearFlags(s3, Ids(s3, symbol));
            && t == s.(positions := t.positions) && t.positions.Keys == s.positions.Keys
            && (forall j :: j in s.positions ==>
                  t.positions[j] == if j.symbol == symbol then s.positions[j].(justInvalidated := false)
                                    else s.positions[j])
  {
    hide Inv, OneOpen, ScheduleAll, ClearFlags, InState, Delayed;
    SchedulesOne(s, symbol, candle, now, id);
    NotDelayed(id, s.positions[id], candle, now, LevelPrice(s.positions[id].topPrice.value, s.config.distances[0]));
    assert s.tasks + multiset{} == s.tasks;
    IdsOfSymbol(s, symbol);
    ClearsFlags(s, Ids(s, symbol));
  }

  lemma NoneWaiting(s: Engine, symbol: string, candle: Candle, now: real, id: PositionId)
    requires Inv(s) && OneOpen(s) && id in s.positions && id.symbol == symbol && s.positions[id].state == Watching
    ensures NewHigh(s, symbol, candle, now) == s
    ensures InState(s.positions, Ids(s, symbol), PotentialTop) == []
    ensures Affords(s.budget) ==> RisingDecision(s, symbol, candle) == Promote(id)
    ensures !Affords(s.budget) ==> RisingDecision(s, symbol, candle) == NoBudget
    ensures CanPlace(s.positions[id]) && s.positions[id].nextLevel == 0
  {
    hide Inv, OneOpen, NewHigh, InState, OrderSize;
    InvFacts(s, id);
    OrderSizeIff(s.budget);
    OnlyWatching(s, symbol, id);
    NothingToBeat(s, symbol, candle, now);
    HasMember(InState(s.positions, Ids(s, symbol), PotentialTop));
    if Affords(s.budget) {
      Promotes(s, symbol, candle, id);
    }
  }

  lemma SchedulesNone(s: Engine, candle: Candle, now: real)
    ensures ScheduleAll(s, [], candle, now) == s
  {
  }

  /** What a candle does to the WATCHING position of its symbol: with a rising pattern and the budget
      it waits at the high with the first level ordered, otherwise it stays as it is. */
  lemma CandleAtWatching(s: Engine, symbol: string, candle: Candle, rising: bool, now: real, id: PositionId)
    requires Inv(s) && OneOpen(s) && candle.high > 0.0
    requires id in s.positions && id.symbol == symbol && s.positions[id].state == Watching
    ensures s.config.distances != []
    ensures var t := CandleClosed(s, symbol, candle, rising, now);
            && id in t.positions && OthersCleared(s, symbol, id, t) && t.tasks == s.tasks
            && var p, q := s.positions[id], t.positions[id];
            && !q.justInvalidated
            && if rising && Affords(s.budget) then
                 q.state == PotentialTop &&
                 Orders(p.(topPrice := Some(candle.high), state := PotentialTop), Dca(id, 0),
                        candle.high * (1.0 - s.config.distances[0] / 100.0), s.budget,
                        q.(justInvalidated := p.justInvalidated), t.budget)
               else
                 q == p.(justInvalidated := false) && t.budget == s.budget
  {
    hide Inv, OneOpen, NewHigh, RisingDecision, ScheduleAll, ClearFlags, InState, OpenAtTop, Follows, KeepsLedger,
         Affords, Cost;
    InvFacts(s, id);
    NoneWaiting(s, symbol, candle, now, id);
    if rising && Affords(s.budget) {
      var s2 := OpenAtTop(s, id, candle.high);
      OpensPosition(s, id, candle.high);
      RisingKeeps(s, symbol, candle);
      assert s2 == Rising(s, symbol, candle);
      AfterOpening(s2, symbol, candle, now, id);
    } else {
      assert ScheduleAll(s, [], candle, now) == s by { SchedulesNone(s, candle, now); }
      IdsOfSymbol(s, symbol);
      ClearsFlags(s, Ids(s, symbol));
    }
  }

  lemma OpensNew(s: Engine, id: PositionId, high: real)
    requires Inv(s) && high > 0.0 && id !in s.positions
    ensures s.config.distances != []
    ensures var t := OpenAtTop(AddPosition(s, id, Fresh(id.symbol)), id, high);
            && id in t.positions && t.positions == s.positions[id := t.positions[id]]
            && Orders(Fresh(id.symbol).(topPrice := Some(high), state := PotentialTop), Dca(id, 0),
                      high * (1.0 - s.config.distances[0] / 100.0), s.budget, t.positions[id], t.budget)
            && t.tasks == s.tasks
  {
    assert s.config.Valid() && BudgetOk(s.budget);
    hide Inv, OpenAtTop, Orders;
    OpensPosition(AddPosition(s, id, Fresh(id.symbol)), id, high);
  }

  lemma NewSymbolOpens(s: Engine, symbol: string, candle: Candle, now: real)
    requires Inv(s) && OneOpen(s) && candle.high > 0.0 && forall id <- s.positions :: id.symbol != symbol
    requires Affords(s.budget) && candle.timestamp.Some?
    ensures s.config.distances != []
    ensures var t, id := CandleClosed(s, symbol, candle, true, now), TopId(symbol, candle.timestamp.value);
            && id in t.positions && t.positions == s.positions[id := t.positions[id]] && t.tasks == s.tasks
            && t.positions[id].state == PotentialTop
            && Orders(Fresh(symbol).(topPrice := Some(candle.high), state := PotentialTop), Dca(id, 0),
                      candle.high * (1.0 - s.config.distances[0] / 100.0), s.budget, t.positions[id], t.budget)
  {
    hide Inv, OneOpen, ScheduleAll, ClearFlags, OpenAtTop, AddPosition, Follows, KeepsLedger, Affords, Cost, OrderSize;
    var id := TopId(symbol, candle.timestamp.value);
    NoIds(s, symbol);
    OrderSizeIff(s.budget);
    assert NewHigh(s, symbol, candle, now) == s;
    assert RisingDecision(s, symbol, candle) == OpenNew(id);
    hide RisingDecision;
    OpensNew(s, id, candle.high);
    RisingKeeps(s, symbol, candle);
    AfterOpening(Rising(s, symbol, candle), symbol, candle, now, id);
  }

  /** What a candle does to a symbol without positions: with a rising pattern, the budget and a
      timestamp a new position waits at the high, otherwise nothing happens. */
  lemma CandleAtNewSymbol(s: Engine, symbol: string, candle: Candle, rising: bool, now: real)
    requires Inv(s) && OneOpen(s) && candle.high > 0.0 && forall id <- s.positions :: id.symbol != symbol
    ensures s.config.distances != []
    ensures var t := CandleClosed(s, symbol, candle, rising, now);
            if rising && Affords(s.budget) && candle.timestamp.Some? then
              var id := TopId(symbol, candle.timestamp.value);
              && id in t.positions && t.positions == s.positions[id := t.positions[id]] && t.tasks == s.tasks
              && t.positions[id].state == PotentialTop
              && Orders(Fresh(symbol).(topPrice := Some(candle.high), state := PotentialTop), Dca(id, 0),
                        candle.high * (1.0 - s.config.distances[0] / 100.0), s.budget, t.positions[id], t.budget)
            else
              t == s
  {
    assert s.config.Valid();
    NoIds(s, symbol);
    if rising && Affords(s.budget) && candle.timestamp.Some? {
      NewSymbolOpens(s, symbol, candle, now);
    } else if rising {
      OrderSizeIff(s.budget);
      RisingWithoutPositions(s, symbol, candle, now);
      hide CandleClosed;
    } else {
      assert NewHigh(s, symbol, candle, now) == s;
      SchedulesNone(s, candle, now);
    }
  }

  // ----- Reports and delayed placements -----

  /** Index `i` is the first at which an order carries the id. */
  predicate FirstWith(orders: seq<OrderInfo>, id: OrderId, i: int)
  {
    0 <= i < |orders| && orders[i].id == id && forall j :: 0 <= j < i ==> orders[j].id != id
  }

  /** Nothing is pending any more, and the first order with the id is cancelled. */
  ghost predicate CancelEntered(p: Position, order: OrderId, q: Position)
  {
    exists i :: FirstWith(p.buyOrders, order, i) &&
      q == p.(pending := None, buyOrders := p.buyOrders[i := p.buyOrders[i].(status := Canceled)])
  }

  lemma CancelMarksFirst(c: Config, id: PositionId, p: Position)
    requires PositionOk(c, id, p) && PendingOrder(p).Some?
    ensures var order := PendingOrder(p).value.id;
            && Cancel(p, order).Some?
            && CancelEntered(p, order, Cancel(p, order).value)
  {
    NamedOrderIsNotFilled(c, id, p);
    var order := PendingOrder(p).value.id;
    assert FirstWith(p.buyOrders, order, FindOrder(p.buyOrders, order).value);
  }

  /** A fill is entered in the first order with the id, with its price and quantity. */
  ghost predicate FillEntered(p: Position, order: OrderId, price: real, quantity: real, q: Position)
  {
    exists i :: FirstWith(p.buyOrders, order, i) &&
      q.buyOrders == p.buyOrders[i := p.buyOrders[i].(status := Filled, filledPrice := Some(price),
                                                      filledQuantity := quantity)]
  }

  lemma FillMarksFirst(p: Position, order: OrderId, price: real, quantity: real)
    ensures Fill(p, order, price, quantity).Some? <==> exists o <- p.buyOrders :: o.id == order
    ensures Fill(p, order, price, quantity).Some? ==>
      FillEntered(p, order, price, quantity, Fill(p, order, price, quantity).value)
  {
    if FindOrder(p.buyOrders, order).Some? {
      assert FirstWith(p.buyOrders, order, FindOrder(p.buyOrders, order).value);
    }
  }

  lemma SaleIsNotPending(s: Engine, order: OrderId)
    requires Inv(s) && order in s.orderOwner && order.SellOf?
    ensures order.owner in s.positions && s.orderOwner[order] == order.owner
    ensures var p := s.positions[order.owner];
            && (PendingOrder(p).Some? ==> PendingOrder(p).value.id != order)
            && p.state == Active && p.sellOrder.Some? && p.sellOrder.value.id == order
  {
    var p := s.positions[order.owner];
    assert Live(p, order) && PositionOk(s.config, order.owner, p);
    if PendingOrder(p).Some? {
      PendingCostPositive(s, order.owner);
    }
  }

  lemma PendingCosts(p: Position)
    requires PendingOrder(p).Some?
    ensures PendingCost(p) == Cost(PendingOrder(p).value.price, PendingOrder(p).value.quantity)
  {
  }

  /** A closed buy order is no longer pending, its money is free again, and the first order with its
      id is marked. */
  lemma ClosedOrderIsReleased(s: Engine, order: OrderId)
    requires Inv(s) && order in s.orderOwner && !order.SellOf?
    ensures var id, t := order.owner, OrderClosed(s, order);
      && id in s.positions && id in t.positions
      && var p, q := s.positions[id], t.positions[id];
      && t == s.(positions := s.positions[id := q], orderOwner := s.orderOwner - {order},
                 budget := s.budget.(available := s.budget.available + PendingCost(p),
                                     locked := s.budget.locked - PendingCost(p)))
      && CancelEntered(p, order, q)
  {
    hide Inv, PositionOk, Live, Cancel, CancelEntered, PendingCost;
    BuyOrderIsPending(s, order);
    LiveBuyIsPending(s, order, 0.0, 0.0);
    assert PositionOk(s.config, order.owner, s.positions[order.owner]) by { InvFacts(s, order.owner); }
    PendingCosts(s.positions[order.owner]);
    CancelMarksFirst(s.config, order.owner, s.positions[order.owner]);
  }

  /** A report about any other id changes nothing. */
  lemma OtherCloseReports(s: Engine, order: OrderId)
    requires Inv(s) && (order !in s.orderOwner || order.SellOf?)
    ensures OrderClosed(s, order) == s
  {
    if order in s.orderOwner {
      SaleIsNotPending(s, order);
    }
  }

  /** A filled sale completes its position at the reported price, gives up the pending buy, and
      frees all that was locked for the position together with the profit. */
  lemma FilledSaleCompletes(s: Engine, order: OrderId, price: real)
    requires Inv(s) && order in s.orderOwner && order.SellOf?
    ensures var id, t := order.owner, SellFilled(s, order, price);
            && id in s.positions && id in t.positions && s.positions[id].sellOrder.Some?
            && var p, q := s.positions[id], t.positions[id];
            && q == p.(state := Completed, pending := None, buyOrders := Withdrawn(p),
                       sellOrder := Some(p.sellOrder.value.(status := Filled, filledPrice := Some(price),
                                                            filledQuantity := p.totalQuantity)))
            && t.budget == s.budget.(
                 available := s.budget.available + PendingCost(p) + Cost(price, p.totalQuantity),
                 locked := s.budget.locked - PendingCost(p) - p.totalInvested)
            && (forall j :: j in t.positions <==> j in s.positions)
            && (forall j :: j in s.positions && j != id ==> t.positions[j] == s.positions[j])
            && t.tasks == s.tasks && t.config == s.config
  {
    hide Inv, Live, Cost;
    SaleIsNotPending(s, order);
    ReleasePendingKeeps(s, order.owner);
    CancelsPending(s, order.owner);
  }

  /** The fill of a sale under the id of a buy order only gives up that order; under an unknown id it
      changes nothing. */
  lemma OtherSaleReports(s: Engine, order: OrderId, price: real)
    requires Inv(s)
    ensures order !in s.orderOwner ==> SellFilled(s, order, price) == s
    ensures order in s.orderOwner && !order.SellOf? ==>
      var id, t := order.owner, SellFilled(s, order, price);
      && id in s.positions
      && var p := s.positions[id];
      && t.positions == s.positions[id := p.(pending := None, buyOrders := Withdrawn(p))]
      && t.budget == s.budget.(available := s.budget.available + PendingCost(p),
                               locked := s.budget.locked - PendingCost(p))
      && t.tasks == s.tasks && t.config == s.config
  {
    if order in s.orderOwner && !order.SellOf? {
      BuyOrderIsPending(s, order);
      InvFacts(s, order.owner);
      hide Inv, Live, Cost, ReleasePending;
      ReleasePendingKeeps(s, order.owner);
      CancelsPending(s, order.owner);
    }
  }

  /** A delayed placement that wakes with nothing pending and the cooldown over places its order, and
      otherwise only goes away. */
  lemma DelayedOrderIsPlaced(s: Engine, t: Task, now: real)
    requires Inv(s) && t in s.tasks
    ensures var u := PlacementDue(s, t, now);
            && t.owner in s.positions && t.owner in u.positions
            && u.positions == s.positions[t.owner := u.positions[t.owner]] && u.tasks == s.tasks - multiset{t}
            && var p, q := s.positions[t.owner], u.positions[t.owner];
            if p.pending.None? && (p.cooldownUntil.Some? ==> now >= p.cooldownUntil.value)
            then Orders(p, t.id, t.price, s.budget, q, u.budget)
            else q == p && u.budget == s.budget
  {
    assert TaskOk(s.config, s.positions, t) && BudgetOk(s.budget);
    hide Inv, Orders, PlaceOrder;
    var s1 := s.(tasks := s.tasks - multiset{t});
    if CanPlace(s.positions[t.owner]) {
      PlacesOrder(s1, t.owner, t.price, t.id);
    }
    assert s.positions[t.owner := s.positions[t.owner]] == s.positions;
  }

  /** A delayed replacement places the first level under the top of a position that still waits
      without a pending order, and otherwise nothing. */
  lemma DelayedReplacementIsPlaced(s: Engine, id: PositionId, now: real)
    requires Inv(s)
    ensures s.config.distances != []
    ensures var t := ReplacementDue(s, id, now);
            if id in s.positions && s.positions[id].state == PotentialTop && s.positions[id].pending.None? then
              && s.positions[id].topPrice.Some?
              && id in t.positions && t.positions == s.positions[id := t.positions[id]] && t.tasks == s.tasks
              && var p, q := s.positions[id], t.positions[id];
                 Orders(p, DcaAt(id, 0, (now * 1000.0).Floor),
                        p.topPrice.value * (1.0 - s.config.distances[0] / 100.0), s.budget, q, t.budget)
            else t == s
  {
    assert s.scheduled == {} && s.config.Valid();
    assert s.(scheduled := s.scheduled - {id}) == s;
    hide Inv, PlaceOrder;
    if id in s.positions && s.positions[id].state == PotentialTop && s.positions[id].pending.None? {
      WaitingFacts(s, id);
      LevelUnderCeiling(s.config, s.positions[id].topPrice.value, 0);
      PlacesOrder(s, id, LevelPrice(s.positions[id].topPrice.value, s.config.distances[0]),
                  DcaAt(id, 0, Milliseconds(now)));
    }
  }

  /** What the five-second check makes of a waiting position. */
  function Checked(p: Position, price: real): Position
  {
    if p.confirmedTop.Some? && p.confirmedTop.value != 0.0 && price > p.confirmedTop.value
    then p.(state := Invalidated) else p
  }

  lemma ChecksFirst(s: Engine, ids: seq<PositionId>, price: real)
    requires ids != [] && ids[0] in s.positions
    ensures CheckAll(s, ids, price) == CheckAll(Put(s, ids[0], Checked(s.positions[ids[0]], price)), ids[1..], price)
  {
    assert s.positions[ids[0] := s.positions[ids[0]]] == s.positions;
  }

  lemma {:induction false} ChecksAll(s: Engine, ids: seq<PositionId>, price: real)
    requires EachOnce(ids) && forall id <- ids :: id in s.positions
    ensures var t := CheckAll(s, ids, price);
            && t == s.(positions := t.positions) && t.positions.Keys == s.positions.Keys
            && (forall id :: id in s.positions ==>
                  t.positions[id] == if id in ids then Checked(s.positions[id], price) else s.positions[id])
    decreases ids
  {
    if ids != [] {
      assert ids == [ids[0]] + ids[1..] && ids[0] in ids && ids[0] !in ids[1..];
      ChecksFirst(s, ids, price);
      hide Checked;
      ChecksAll(Put(s, ids[0], Checked(s.positions[ids[0]], price)), ids[1..], price);
    }
  }

  /** It would invalidate the waiting positions whose confirmed top is under the price; on the runs of
      the engine there are none. */
  lemma PriceCheckInvalidates(s: Engine, symbol: string, price: real)
    requires IndexExact(s)
    ensures var t := CheckForInvalidation(s, symbol, price);
            && t == s.(positions := t.positions) && t.positions.Keys == s.positions.Keys
            && (forall id :: id in s.positions ==>
                  t.positions[id] == if id.symbol == symbol && s.positions[id].state == PotentialTop
                                     then Checked(s.positions[id], price) else s.positions[id])
  {
    StateOfSymbol(s, symbol, PotentialTop);
    hide IndexExact, InState, Ids, EachOnce, Checked;
    ChecksAll(s, InState(s.positions, Ids(s, symbol), PotentialTop), price);
  }

  // ----- The price of a pending order, over whole runs -----

  /** The pending order of an active position is for its next level, at that level's distance under
      the top. */
  predicate OnLevel(c: Config, p: Position)
  {
    p.state == Active && PendingOrder(p).Some? ==>
      && p.topPrice.Some? && p.nextLevel < |c.distances|
      && PendingOrder(p).value.level == p.nextLevel
      && PendingOrder(p).value.price == p.topPrice.value * (1.0 - c.distances[p.nextLevel] / 100.0)
  }

  ghost predicate AllOnLevel(s: Engine)
  {
    forall id :: id in s.positions ==> OnLevel(s.config, s.positions[id])
  }

  /** What is active after an event that fills no buy was active before, and its pending order is
      what it was, or gone. */
  ghost predicate KeepsActive(s: Engine, t: Engine)
  {
    t.config == s.config &&
    forall id :: id in t.positions && t.positions[id].state == Active ==>
      && id in s.positions && s.positions[id].state == Active
      && t.positions[id].topPrice == s.positions[id].topPrice && t.positions[id].nextLevel == s.positions[id].nextLevel
      && (PendingOrder(t.positions[id]).Some? ==> PendingOrder(t.positions[id]) == PendingOrder(s.positions[id]))
  }

  lemma OpenOne(s: Engine, id: PositionId) returns (w: PositionId)
    requires OneOpen(s) && id in s.positions
    ensures w in s.positions && w.symbol == id.symbol
    ensures s.positions[w].state == PotentialTop || s.positions[w].state == Watching
  {
    assert HasOpen(s, id.symbol);
    w :| OpenAt(s, id.symbol, w);
  }

  lemma KeptConfig(s: Engine, t: Engine)
    requires Kept(s, t)
    ensures t.config == s.config
  {
  }

  lemma CandleKeepsActive(s: Engine, symbol: string, candle: Candle, rising: bool, now: real)
    requires Inv(s) && OneOpen(s) && candle.high > 0.0
    ensures KeepsActive(s, CandleClosed(s, symbol, candle, rising, now))
  {
    hide Inv, CandleClosed, OneOpen, Orders, TopRaised, MayDelay, Kept;
    CandleKeeps(s, symbol, candle, rising, now);
    KeptConfig(s, CandleClosed(s, symbol, candle, rising, now));
    if other :| other in s.positions && other.symbol == symbol {
      var id := OpenOne(s, other);
      if s.positions[id].state == PotentialTop {
        CandleAtWaiting(s, symbol, candle, rising, now, id);
      } else {
        CandleAtWatching(s, symbol, candle, rising, now, id);
      }
    } else {
      CandleAtNewSymbol(s, symbol, candle, rising, now);
    }
  }

  lemma DelayedKeepsActive(s: Engine, t: Task, now: real)
    requires Inv(s) && Allowed(s, OnPlacementDue(t, now))
    ensures KeepsActive(s, PlacementDue(s, t, now))
  {
    hide Inv, OrderSize, PlaceOrder;
    OrderSizeIff(s.budget);
    var u := PlacementDue(s, t, now);
    if t in s.tasks {
      DelayedOrderIsPlaced(s, t, now);
      assert u.config == s.config by { PlacementDueKeeps(s, t, now); }
      hide PlacementDue;
    }
  }

  lemma ReplacementKeepsActive(s: Engine, id: PositionId, now: real)
    requires Inv(s)
    ensures KeepsActive(s, ReplacementDue(s, id, now))
  {
    hide Inv, PlaceReplacement;
    ReplacementDueKeeps(s, id, now);
    assert ReplacementDue(s, id, now).config == s.config;
    hide Follows, KeepsLedger, Good;
    if id in s.positions {
      ReplacementTouches(s.(scheduled := s.scheduled - {id}), id, now);
    }
  }

  lemma SaleKeepsActive(s: Engine, order: OrderId, price: real)
    requires Inv(s)
    ensures KeepsActive(s, SellFilled(s, order, price))
  {
    hide Inv, SellFilled, Cost;
    OtherSaleReports(s, order, price);
    if order in s.orderOwner && order.SellOf? {
      FilledSaleCompletes(s, order, price);
    }
  }

  lemma CloseKeepsActive(s: Engine, order: OrderId)
    requires Inv(s)
    ensures KeepsActive(s, OrderClosed(s, order))
  {
    hide Inv, OrderClosed;
    if order in s.orderOwner && !order.SellOf? {
      ClosedOrderIsReleased(s, order);
    } else {
      OtherCloseReports(s, order);
    }
  }

  lemma TickerKeepsActive(s: Engine, symbol: string, price: real)
    requires Inv(s)
    ensures KeepsActive(s, Ticker(s, symbol, price))
  {
    hide Inv, Ticker;
    TickerManagesSales(s, symbol, price);
  }

  lemma NothingKeepsActive(s: Engine)
    ensures KeepsActive(s, s)
  {
  }

  lemma QuietKeepsActive(s: Engine, e: Event)
    requires Inv(s) && OneOpen(s) && Allowed(s, e) && !e.OnBuyFill?
    ensures KeepsActive(s, Step(s, e))
  {
    hide Inv, OneOpen, CandleClosed, Ticker, OrderClosed, SellFilled, PlacementDue, ReplacementDue,
         CheckForInvalidation, KeepsActive;
    match e
    case OnCandle(symbol, c, rising, now) => CandleKeepsActive(s, symbol, c, rising, now);
    case OnTicker(symbol, price) => TickerKeepsActive(s, symbol, price);
    case OnOrderClosed(order) => CloseKeepsActive(s, order);
    case OnSellFill(order, price) => SaleKeepsActive(s, order, price);
    case OnPlacementDue(t, now) => DelayedKeepsActive(s, t, now);
    case OnReplacementDue(owner, now) => ReplacementKeepsActive(s, owner, now);
    case OnPriceCheck(symbol, price) =>
      PriceCheckNeverInvalidates(s, symbol, price);
      NothingKeepsActive(s);
  }

  lemma UnknownFill(s: Engine, e: Event)
    requires Inv(s) && e.OnBuyFill? && (e.order !in s.orderOwner || e.order.SellOf?)
    ensures Step(s, e) == s
  {
    if e.order in s.orderOwner {
      LiveBuyIsPending(s, e.order, e.price, e.quantity);
      SaleIsNotPending(s, e.order);
    }
  }

  lemma NextLevelIsOnLevel(c: Config, id: PositionId, b: Budget, q: Position, b': Budget)
    requires NextLevelOrdered(c, id, b, q, b')
    ensures OnLevel(c, q)
  {
  }

  lemma FillKeepsOnLevel(s: Engine, e: Event)
    requires Inv(s) && Allowed(s, e) && e.OnBuyFill? && AllOnLevel(s)
    ensures AllOnLevel(Step(s, e))
  {
    hide Inv, Fill, Cost, BuyFilled, NextLevelOrdered;
    BuyFilledKeeps(s, e.order, e.price, e.quantity, e.now);
    if e.order in s.orderOwner && !e.order.SellOf? {
      var t := Step(s, e);
      FillOrdersNextLevel(s, e.order, e.price, e.quantity, e.now);
      NextLevelIsOnLevel(s.config, e.order.owner, s.budget, t.positions[e.order.owner], t.budget);
      hide Follows, KeepsLedger, OnLevel;
    } else {
      UnknownFill(s, e);
    }
  }

  lemma StepKeepsOnLevel(s: Engine, e: Event)
    requires Inv(s) && OneOpen(s) && Allowed(s, e) && AllOnLevel(s)
    ensures AllOnLevel(Step(s, e))
  {
    hide Inv, OneOpen, Allowed, Step;
    if e.OnBuyFill? {
      FillKeepsOnLevel(s, e);
    } else {
      QuietKeepsActive(s, e);
    }
  }

  lemma {:induction false} RunKeepsOnLevel(s: Engine, events: seq<Event>)
    requires Inv(s) && OneOpen(s) && AllowedRun(s, events) && AllOnLevel(s)
    ensures AllOnLevel(Run(s, events))
    decreases |events|
  {
    hide Inv, OneOpen, Step, Allowed, AllOnLevel;
    if events != [] {
      StepKeeps(s, events[0]);
      StepKeepsOnLevel(s, events[0]);
      RunKeepsOnLevel(Step(s, events[0]), events[1..]);
    }
  }

  /** On every run the pending order of an active position is for the level that is next, at its
      distance under the confirmed top. */
  lemma LaterLevelsAreOnPrice(c: Config, budget: real, percentage: real, events: seq<Event>, id: PositionId)
    requires GoodStart(c, budget, percentage) && AllowedRun(Start(c, budget, percentage), events)
    requires id in Run(Start(c, budget, percentage), events).positions
    ensures var p := Run(Start(c, budget, percentage), events).positions[id];
            p.state == Active && PendingOrder(p).Some? ==>
              && p.confirmedTop.Some? && 0 < p.nextLevel < |c.distances|
              && PendingOrder(p).value.level == p.nextLevel
              && PendingOrder(p).value.price == p.confirmedTop.value * (1.0 - c.distances[p.nextLevel] / 100.0)
  {
    hide Run, AllowedRun, Drift, Equity, AllBacked, Inv, OneOpen, BuyOk;
    StartIsGood(c, budget, percentage);
    RunFromStart(c, budget, percentage, events);
    RunKeepsOnLevel(Start(c, budget, percentage), events);
    var t := Run(Start(c, budget, percentage), events);
    assert OnLevel(c, t.positions[id]);
    InvFacts(t, id);
  }
}
