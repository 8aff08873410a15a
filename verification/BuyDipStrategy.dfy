/**
 The Buy Dip strategy as the object it is: maps of position objects, one shared budget
 manager, and methods that change them in place. Each method is proved to do to the
 engine's value exactly what the step function of `BuyDipEngine` says.
 */
module BuyDipStrategies {
  import opened Options
  import opened Money
  import opened Budgets
  import opened BuyDipPositions
  import opened BuyDipEngine

  lemma CheckAllSplits(s: Engine, ids: seq<PositionId>, price: real)
    requires ids != []
    ensures CheckAll(s, ids, price) == CheckAll(CheckAll(s, [ids[0]], price), ids[1..], price)
  {
  }

  lemma InStateFirst(ps: map<PositionId, Position>, id: PositionId, rest: seq<PositionId>, st: PositionState)
    ensures InState(ps, [id] + rest, st) ==
      if id in ps && ps[id].state == st then [id] + InState(ps, rest, st) else InState(ps, rest, st)
  {
    assert ([id] + rest)[1..] == rest;
  }

  lemma InStateOfNone(ps: map<PositionId, Position>, ids: seq<PositionId>, st: PositionState)
    ensures ids[|ids|..] == [] && InState(ps, [], st) == [] && ids[0..] == ids
  {
  }

  lemma BookedPosition(s: Engine, order: OrderId, id: PositionId, p: Position)
    ensures id in BookFill(s, order, id, p).positions && BookFill(s, order, id, p).positions[id] == p
  {
  }

  class BuyDipStrategy {
    const config: Config
    const budget: BudgetManager
    var positions: map<PositionId, BuyDipPosition>
    var symbolPositions: map<string, seq<PositionId>>
    var orderToPosition: map<OrderId, PositionId>
    var tasks: multiset<Task>
    var scheduled: set<PositionId>

    /** Every position object is filed under its own id, so no two entries share one. */
    ghost predicate Valid()
      reads this`positions
    {
      forall id :: id in positions ==> positions[id].id == id
    }

    ghost function Views(): map<PositionId, Position>
      reads this`positions, positions.Values
    {
      map id | id in positions :: positions[id].View()
    }

    ghost function View(): Engine
      reads this, budget, positions.Values
    {
      Engine(config, budget.View(), Views(), symbolPositions, orderToPosition, tasks, scheduled)
    }

    /** Changing one position object changes one entry of the view. */
    twostate lemma OneChanged(id: PositionId)
      requires Valid() && positions == old(positions) && id in positions
      requires forall j :: j in positions && positions[j].id != id ==> unchanged(positions[j])
      ensures Views() == old(Views())[id := positions[id].View()]
    {
    }

    constructor (config: Config, totalBudget: real, orderBudgetPct: real)
      ensures Valid() && fresh(budget)
      ensures View() == Start(config, totalBudget, orderBudgetPct)
    {
      this.config := config;
      budget := new BudgetManager(totalBudget, orderBudgetPct);
      positions, symbolPositions, orderToPosition := map[], map[], map[];
      tasks, scheduled := multiset{}, {};
    }

    function SymbolIds(symbol: string): seq<PositionId>
      reads this
    {
      if symbol in symbolPositions then symbolPositions[symbol] else []
    }

    method PositionsInState(symbol: string, st: PositionState) returns (found: seq<PositionId>)
      requires Valid()
      ensures found == InState(Views(), Ids(View(), symbol), st)
    {
      hide InState;
      var ids := SymbolIds(symbol);
      ghost var ps := Views();
      found := [];
      InStateOfNone(ps, ids, st);
      for i := 0 to |ids|
        invariant found + InState(ps, ids[i..], st) == InState(ps, ids, st)
      {
        assert ids[i..] == [ids[i]] + ids[i + 1..];
        InStateFirst(ps, ids[i], ids[i + 1..], st);
        if ids[i] in positions && positions[ids[i]].state == st {
          found := found + [ids[i]];
        }
      }
    }

    // ----- Buy orders -----

    method PlaceOrder(id: PositionId, price: real, order: OrderId) returns (ok: bool)
      requires Valid()
      modifies this`orderToPosition, budget, positions.Values
      ensures Valid()
      ensures View() == BuyDipEngine.PlaceOrder(old(View()), id, price, order)
      ensures ok == (id in positions && CanPlace(old(View()).positions[id]) && OrderSize(old(View()).budget).Some?)
    {
      if id !in positions {
        return false;
      }
      var p := positions[id];
      if !p.CanPlaceOrder() {
        return false;
      }
      var size := budget.CalculateOrderSize();
      if size.None? {
        return false;
      }
      budget.LockFunds(size.value);
      ok := p.PlaceBuyOrder(order, price, Ratio(size.value, price), p.nextDcaLevel);
      orderToPosition := orderToPosition[order := id];
      OneChanged(id);
    }

    method HandleOrderCancelOrExpire(order: OrderId)
      requires Valid()
      modifies this`orderToPosition, budget, positions.Values
      ensures Valid()
      ensures View() == OrderClosed(old(View()), order)
    {
      hide Cost;
      if order !in orderToPosition || orderToPosition[order] !in positions {
        return;
      }
      var id := orderToPosition[order];
      var p := positions[id];
      ghost var pending := PendingOrder(p.View());
      if p.pendingOrder.Some? && p.pendingOrder.value < |p.buyOrders| && p.buyOrders[p.pendingOrder.value].id == order {
        var o := p.buyOrders[p.pendingOrder.value];
        var ok := p.HandleOrderCancel(order);
        if ok {
          budget.ReleaseFunds(Cost(o.price, o.quantity));
          orderToPosition := orderToPosition - {order};
        }
        OneChanged(id);
      }
    }

    /** Give up the pending order of a position before it closes. */
    method DropPendingOrder(id: PositionId)
      requires Valid()
      modifies this`orderToPosition, budget, positions.Values
      ensures Valid()
      ensures View() == ReleasePending(old(View()), id)
    {
      if id !in positions {
        return;
      }
      var p := positions[id];
      if p.pendingOrder.Some? && p.pendingOrder.value < |p.buyOrders| {
        var o := p.buyOrders[p.pendingOrder.value];
        p.CancelPending();
        budget.ReleaseFunds(Cost(o.price, o.quantity));
        orderToPosition := orderToPosition - {o.id};
        OneChanged(id);
      }
    }

    // ----- The top invalidation handler -----

    method CancelPendingOrder(id: PositionId)
      requires Valid()
      modifies this`orderToPosition, budget, positions.Values
      ensures Valid()
      ensures View() == HandlerCancel(old(View()), id)
    {
      hide Cost;
      if id !in positions {
        return;
      }
      var p := positions[id];
      if p.pendingOrder.Some? && p.pendingOrder.value < |p.buyOrders| {
        var o := p.buyOrders[p.pendingOrder.value];
        p.CancelPending();
        var amount := Cost(o.price, o.quantity);
        if amount > 0.0 {
          budget.ReleaseFunds(amount);
        }
        orderToPosition := orderToPosition - {o.id};
        OneChanged(id);
      }
    }

    method UpdatePositionState(id: PositionId, high: real, timestamp: Option<int>, now: real)
      requires Valid()
      modifies positions.Values
      ensures Valid() && View() == RaiseTop(old(View()), id, high, timestamp, now)
    {
      if id in positions {
        var p := positions[id];
        p.topPrice := Some(high);
        p.justInvalidated := true;
        p.lastInvalidationTs := timestamp;
        p.cooldownUntil := Some(now + config.cooldown);
        OneChanged(id);
      }
    }

    method PlaceReplacementOrder(id: PositionId, now: real)
      requires Valid()
      modifies this`orderToPosition, budget, positions.Values
      ensures Valid()
      ensures View() == PlaceReplacement(old(View()), id, now)
    {
      if id !in positions || positions[id].topPrice.None? {
        return;
      }
      var p := positions[id];
      var distance := if config.distances == [] then 0.0 else config.distances[0];
      var _ := PlaceOrder(id, LevelPrice(p.topPrice.value, distance), DcaAt(id, p.nextDcaLevel, Milliseconds(now)));
    }

    method InvalidatePosition(id: PositionId, high: real, timestamp: Option<int>, now: real)
      requires Valid()
      modifies this`orderToPosition, this`scheduled, budget, positions.Values
      ensures Valid()
      ensures View() == Invalidate(old(View()), id, high, timestamp, now)
    {
      hide HandlerCancel, RaiseTop, PlaceReplacement, Significant;
      assert id in positions ==> View().positions[id] == positions[id].View();
      if id !in positions || !Significant(config, positions[id].View(), high) {
        return;
      }
      ghost var s := View();
      var level := positions[id].nextDcaLevel;
      CancelPendingOrder(id);
      assert View() == HandlerCancel(s, id);
      UpdatePositionState(id, high, timestamp, now);
      assert View() == RaiseTop(HandlerCancel(s, id), id, high, timestamp, now);
      if level == 0 {
        PlaceReplacementOrder(id, now);
      } else {
        scheduled := scheduled + {id};
        assert Views() == RaiseTop(HandlerCancel(s, id), id, high, timestamp, now).positions;
      }
    }

    method HandleTopInvalidation(symbol: string, c: Candle, now: real)
      requires Valid()
      modifies this`orderToPosition, this`scheduled, budget, positions.Values
      ensures Valid()
      ensures View() == InvalidateAll(old(View()),
                                      InState(old(View()).positions, Ids(old(View()), symbol), PotentialTop),
                                      c.high, c.timestamp, now)
    {
      hide Invalidate, InState;
      var ids := PositionsInState(symbol, PotentialTop);
      for i := 0 to |ids|
        invariant Valid()
        invariant InvalidateAll(View(), ids[i..], c.high, c.timestamp, now)
               == InvalidateAll(old(View()), ids, c.high, c.timestamp, now)
      {
        assert ids[i..][0] == ids[i] && ids[i..][1..] == ids[i + 1..];
        if ids[i] in positions && HasTop(positions[ids[i]].View()) {
          InvalidatePosition(ids[i], c.high, c.timestamp, now);
        }
      }
    }

    // ----- Candles -----

    method AnyBeaten(ids: seq<PositionId>, high: real) returns (beaten: bool)
      requires Valid()
      ensures beaten == Beaten(Views(), ids, high)
    {
      for i := 0 to |ids|
        invariant forall j :: 0 <= j < i ==>
                    !(ids[j] in Views() && HasTop(Views()[ids[j]]) && high > Views()[ids[j]].topPrice.value)
      {
        if ids[i] in positions && HasTop(positions[ids[i]].View()) && high > positions[ids[i]].topPrice.value {
          assert Views()[ids[i]] == positions[ids[i]].View();
          return true;
        }
      }
      beaten := false;
    }

    method CheckNewHigh(symbol: string, c: Candle, now: real)
      requires Valid()
      modifies this`orderToPosition, this`scheduled, budget, positions.Values
      ensures Valid()
      ensures View() == NewHigh(old(View()), symbol, c, now)
    {
      hide InvalidateAll;
      var ids := PositionsInState(symbol, PotentialTop);
      var beaten := AnyBeaten(ids, c.high);
      if beaten {
        HandleTopInvalidation(symbol, c, now);
      }
    }

    method AddFreshPosition(id: PositionId, symbol: string)
      requires Valid()
      modifies this
      ensures Valid() && fresh(positions.Values - old(positions.Values))
      ensures positions.Keys == old(positions.Keys) + {id}
      ensures View() == AddPosition(old(View()), id, Fresh(symbol))
    {
      var p := new BuyDipPosition(id, symbol);
      positions := positions[id := p];
      symbolPositions := symbolPositions[symbol := SymbolIds(symbol) + [id]];
      assert Views() == old(Views())[id := p.View()];
    }

    method OpenPositionAtTop(id: PositionId, high: real)
      requires Valid()
      modifies this`orderToPosition, budget, positions.Values
      ensures Valid()
      ensures View() == OpenAtTop(old(View()), id, high)
    {
      if id !in positions {
        return;
      }
      var p := positions[id];
      p.SetPotentialTop(high);
      OneChanged(id);
      if config.distances != [] {
        var _ := PlaceOrder(id, LevelPrice(high, config.distances[0]), Dca(id, 0));
      }
    }

    /** Is any of these positions still without its first fill? */
    method AnyAtFirstLevel(ids: seq<PositionId>) returns (waiting: bool)
      requires Valid()
      ensures waiting == BuyDipEngine.AnyAtFirstLevel(Views(), ids)
    {
      for i := 0 to |ids|
        invariant forall j :: 0 <= j < i ==> !(ids[j] in Views() && Views()[ids[j]].nextLevel == 0)
      {
        if ids[i] in positions && positions[ids[i]].nextDcaLevel == 0 {
          assert Views()[ids[i]].nextLevel == 0;
          return true;
        }
      }
      waiting := false;
    }

    method DecideOnRising(symbol: string, c: Candle) returns (d: RisingOutcome)
      requires Valid()
      ensures d == RisingDecision(View(), symbol, c)
    {
      hide InState, OrderSize, BuyDipEngine.AnyAtFirstLevel;
      var size := budget.CalculateOrderSize();
      if size.None? {
        return NoBudget;
      }
      var watching := PositionsInState(symbol, Watching);
      if watching != [] {
        return Promote(watching[0]);
      }
      var tops := PositionsInState(symbol, PotentialTop);
      var waiting := AnyAtFirstLevel(tops);
      if waiting {
        return WaitForFill;
      }
      d := if c.timestamp.None? then NoTimestamp else OpenNew(TopId(symbol, c.timestamp.value));
    }

    /** Returns false when the candle's missing timestamp raises. */
    method HandleRisingPattern(symbol: string, c: Candle) returns (ok: bool)
      requires Valid()
      modifies this, budget, positions.Values
      ensures Valid() && fresh(positions.Values - old(positions.Values))
      ensures View() == Rising(old(View()), symbol, c)
      ensures ok == !RisingDecision(old(View()), symbol, c).NoTimestamp?
    {
      hide OpenAtTop, AddPosition, RisingDecision;
      var d := DecideOnRising(symbol, c);
      match d {
        case Promote(id) => OpenPositionAtTop(id, c.high);
        case OpenNew(id) =>
          AddFreshPosition(id, symbol);
          OpenPositionAtTop(id, c.high);
        case _ =>
      }
      ok := !d.NoTimestamp?;
    }

    method ScheduleReplacement(id: PositionId, c: Candle, now: real)
      requires Valid()
      modifies this`tasks
      ensures View() == ScheduleOne(old(View()), id, c, now)
    {
      if id in positions && ReadyToSchedule(positions[id].View(), c, now) && config.distances != [] {
        var p := positions[id];
        var price := LevelPrice(p.topPrice.value, config.distances[0]);
        tasks := tasks + multiset{Task(id, price, Dca(id, p.nextDcaLevel))};
      }
    }

    method ScheduleReplacements(symbol: string, c: Candle, now: real)
      requires Valid()
      modifies this`tasks
      ensures Valid()
      ensures View() == ScheduleAll(old(View()),
                                    InState(old(View()).positions, Ids(old(View()), symbol), PotentialTop), c, now)
    {
      var ids := PositionsInState(symbol, PotentialTop);
      for i := 0 to |ids|
        invariant ScheduleAll(View(), ids[i..], c, now) == ScheduleAll(old(View()), ids, c, now)
      {
        assert ids[i..][0] == ids[i] && ids[i..][1..] == ids[i + 1..];
        ScheduleReplacement(ids[i], c, now);
      }
    }

    method ClearFlag(id: PositionId)
      requires Valid() && id in positions
      modifies positions.Values
      ensures View() == Put(old(View()), id, old(View()).positions[id].(justInvalidated := false))
    {
      positions[id].justInvalidated := false;
      OneChanged(id);
    }

    method ClearInvalidationFlags(symbol: string)
      requires Valid()
      modifies positions.Values
      ensures Valid()
      ensures View() == ClearFlags(old(View()), Ids(old(View()), symbol))
    {
      hide Put;
      var ids := SymbolIds(symbol);
      for i := 0 to |ids|
        invariant ClearFlags(View(), ids[i..]) == ClearFlags(old(View()), ids)
      {
        assert ids[i..][0] == ids[i] && ids[i..][1..] == ids[i + 1..];
        if ids[i] in positions {
          ClearFlag(ids[i]);
        }
      }
    }

    method ProcessCandle(symbol: string, c: Candle, rising: bool, now: real)
      requires Valid()
      modifies this, budget, positions.Values
      ensures Valid() && fresh(positions.Values - old(positions.Values))
      ensures View() == CandleClosed(old(View()), symbol, c, rising, now)
    {
      hide NewHigh, RisingDecision, ScheduleAll, ClearFlags, InState, OpenAtTop, AddPosition;
      CheckNewHigh(symbol, c, now);
      if rising {
        var ok := HandleRisingPattern(symbol, c);
        if !ok {
          return;
        }
      }
      ScheduleReplacements(symbol, c, now);
      ClearInvalidationFlags(symbol);
    }

    // ----- Delayed placements -----

    method RunDelayedPlacement(t: Task, now: real)
      requires Valid()
      modifies this`orderToPosition, this`tasks, budget, positions.Values
      ensures Valid()
      ensures View() == PlacementDue(old(View()), t, now)
    {
      hide BuyDipEngine.PlaceOrder;
      ghost var s := View();
      if t !in tasks {
        return;
      }
      tasks := tasks - multiset{t};
      assert View() == s.(tasks := s.tasks - multiset{t});
      assert t.owner in positions ==> s.positions[t.owner] == positions[t.owner].View();
      if t.owner !in positions || !positions[t.owner].CanPlaceOrder() {
        return;
      }
      var cooldown := positions[t.owner].cooldownUntil;
      if cooldown.Some? && now < cooldown.value {
        return;
      }
      var _ := PlaceOrder(t.owner, t.price, t.id);
    }

    method RunDelayedReplacement(id: PositionId, now: real)
      requires Valid()
      modifies this`orderToPosition, this`scheduled, budget, positions.Values
      ensures Valid()
      ensures View() == ReplacementDue(old(View()), id, now)
    {
      hide PlaceReplacement;
      ghost var s := View();
      scheduled := scheduled - {id};
      assert View() == s.(scheduled := s.scheduled - {id});
      assert id in positions ==> s.positions[id] == positions[id].View();
      if id in positions && positions[id].state == PotentialTop && positions[id].CanPlaceOrder() &&
        HasTop(positions[id].View()) {
        PlaceReplacementOrder(id, now);
      }
    }

    // ----- Fills -----

    method CreatePlaceholderWatchingPosition(symbol: string, now: real)
      requires Valid()
      modifies this
      ensures Valid() && fresh(positions.Values - old(positions.Values))
      ensures View() == CreatePlaceholder(old(View()), symbol, now)
    {
      var watching := PositionsInState(symbol, Watching);
      if watching != [] {
        return;
      }
      var id := if BaseId(symbol) in positions then StampedId(symbol, Milliseconds(now)) else BaseId(symbol);
      AddFreshPosition(id, symbol);
    }

    method PlaceNextDcaOrder(id: PositionId)
      requires Valid()
      modifies this`orderToPosition, budget, positions.Values
      ensures Valid()
      ensures View() == PlaceNextLevel(old(View()), id)
    {
      if id !in positions {
        return;
      }
      var p := positions[id];
      if p.state == Active && p.CanPlaceOrder() && p.nextDcaLevel < |config.distances| && p.confirmedTop.Some? {
        var price := LevelPrice(p.confirmedTop.value, config.distances[p.nextDcaLevel]);
        var _ := PlaceOrder(id, price, Dca(id, p.nextDcaLevel));
      }
    }

    /** Enter a fill in its position; returns false when the position does not know the order. */
    method EnterFill(order: OrderId, id: PositionId, price: real, quantity: real) returns (ok: bool)
      requires Valid() && id in positions
      modifies this`orderToPosition, positions[id]
      ensures Valid()
      ensures ok == Fill(old(View()).positions[id], order, price, quantity).Some?
      ensures View() ==
        if ok then BookFill(old(View()), order, id, Fill(old(View()).positions[id], order, price, quantity).value)
        else old(View())
    {
      hide Fill;
      ok := positions[id].HandleOrderFill(order, price, quantity);
      OneChanged(id);
      if ok {
        orderToPosition := orderToPosition - {order};
      } else {
        assert Views() == old(Views());
      }
    }

    method HandleOrderFill(order: OrderId, price: real, quantity: real, now: real)
      requires Valid()
      modifies this, budget, positions.Values
      ensures Valid() && fresh(positions.Values - old(positions.Values))
      ensures View() == BuyFilled(old(View()), order, price, quantity, now)
    {
      hide Fill, BookFill, CreatePlaceholder, PlaceNextLevel;
      if order !in orderToPosition || orderToPosition[order] !in positions {
        return;
      }
      var id := orderToPosition[order];
      var p := positions[id];
      var wasPotentialTop := p.state == PotentialTop;
      var ok := EnterFill(order, id, price, quantity);
      if !ok {
        return;
      }
      BookedPosition(old(View()), order, id, Fill(old(View()).positions[id], order, price, quantity).value);
      assert View().positions[id] == p.View();
      if wasPotentialTop && p.state == Active {
        CreatePlaceholderWatchingPosition(p.symbol, now);
      }
      PlaceNextDcaOrder(id);
    }

    /** Returns false when the fill does not belong to the position's sell order. */
    method ClosePosition(id: PositionId, order: OrderId, price: real) returns (ok: bool)
      requires Valid() && id in positions
      modifies this`orderToPosition, budget, positions.Values
      ensures Valid()
      ensures View() == CloseWithSale(old(View()), order, id, price)
    {
      hide SellFill, Release, Cost;
      ghost var s := View();
      var p := positions[id];
      assert s.positions[id] == p.View();
      var invested := p.totalInvested;
      var profit := Cost(price, p.totalQuantity) - invested;
      ok := p.HandleSellFill(order, price, p.totalQuantity);
      assert Views() == s.positions[id := p.View()];
      if ok {
        budget.ReleaseFunds(invested, profit);
        orderToPosition := orderToPosition - {order};
        assert Views() == s.positions[id := p.View()];
      } else {
        assert s.positions[id := p.View()] == s.positions;
      }
    }

    method HandleSellFill(order: OrderId, price: real) returns (ok: bool)
      requires Valid()
      modifies this`orderToPosition, budget, positions.Values
      ensures Valid()
      ensures View() == SellFilled(old(View()), order, price)
    {
      hide ReleasePending, CloseWithSale;
      if order !in orderToPosition || orderToPosition[order] !in positions {
        return false;
      }
      var id := orderToPosition[order];
      DropPendingOrder(id);
      ok := ClosePosition(id, order, price);
    }

    // ----- Sell order management -----

    method PlaceSell(id: PositionId, order: OrderId) returns (ok: bool)
      requires Valid()
      modifies this`orderToPosition, positions.Values
      ensures Valid()
      ensures View() == PlaceSellOrder(old(View()), id, order)
    {
      if id !in positions {
        return false;
      }
      var p := positions[id];
      if p.state != Active || p.totalQuantity <= 0.0 {
        return false;
      }
      var price := if p.confirmedTop.Some? && p.confirmedTop.value != 0.0 then p.confirmedTop else p.averageEntry;
      if price.None? {
        return false;
      }
      p.PlaceSellOrder(order, price.value, p.totalQuantity);
      orderToPosition := orderToPosition[order := id];
      OneChanged(id);
      ok := true;
    }

    method CancelSell(order: OrderId)
      requires Valid()
      modifies this`orderToPosition, positions.Values
      ensures Valid()
      ensures View() == CancelSellOrder(old(View()), order)
    {
      if order !in orderToPosition || orderToPosition[order] !in positions {
        return;
      }
      var p := positions[orderToPosition[order]];
      p.sellOrder := None;
      OneChanged(orderToPosition[order]);
      orderToPosition := orderToPosition - {order};
    }

    method ManageSellOrder(id: PositionId, price: real)
      requires Valid()
      modifies this`orderToPosition, positions.Values
      ensures Valid()
      ensures View() == ManageSell(old(View()), id, price)
    {
      if id !in positions || positions[id].confirmedTop.None? || positions[id].confirmedTop.value == 0.0 {
        return;
      }
      var p := positions[id];
      var distance := DistanceFromTop(p.confirmedTop.value, price);
      if p.sellOrder.None? {
        if distance <= config.sellPlacement {
          var _ := PlaceSell(id, SellOf(id));
        }
      } else if distance >= config.sellCancellation {
        CancelSell(p.sellOrder.value.id);
      }
    }

    method ProcessTicker(symbol: string, price: real)
      requires Valid()
      modifies this`orderToPosition, positions.Values
      ensures Valid()
      ensures View() == Ticker(old(View()), symbol, price)
    {
      hide ManageSell, InState;
      var ids := PositionsInState(symbol, Active);
      for i := 0 to |ids|
        invariant Valid()
        invariant ManageSells(View(), ids[i..], price) == ManageSells(old(View()), ids, price)
      {
        assert ids[i..][0] == ids[i] && ids[i..][1..] == ids[i + 1..];
        ManageSellOrder(ids[i], price);
      }
    }

    method CheckOne(id: PositionId, price: real)
      requires Valid()
      modifies positions.Values
      ensures Valid()
      ensures View() == CheckAll(old(View()), [id], price)
    {
      if id in positions && positions[id].confirmedTop.Some?
         && positions[id].confirmedTop.value != 0.0 && price > positions[id].confirmedTop.value {
        positions[id].state := Invalidated;
        OneChanged(id);
      }
    }

    method CheckInvalidation(symbol: string, price: real)
      requires Valid()
      modifies positions.Values
      ensures Valid()
      ensures View() == CheckForInvalidation(old(View()), symbol, price)
    {
      var ids := PositionsInState(symbol, PotentialTop);
      for i := 0 to |ids|
        invariant Valid()
        invariant CheckAll(View(), ids[i..], price) == CheckAll(old(View()), ids, price)
      {
        CheckAllSplits(View(), ids[i..], price);
        assert ids[i..][0] == ids[i] && ids[i..][1..] == ids[i + 1..];
        CheckOne(ids[i], price);
      }
    }

    /** One event of the worker loop. */
    method Handle(e: Event)
      requires Valid()
      modifies this, budget, positions.Values
      ensures Valid() && fresh(positions.Values - old(positions.Values))
      ensures View() == Step(old(View()), e)
    {
      hide CandleClosed, Ticker, BuyFilled, OrderClosed, SellFilled, PlacementDue, ReplacementDue,
           CheckForInvalidation;
      match e
      case OnCandle(symbol, candle, rising, now) => ProcessCandle(symbol, candle, rising, now);
      case OnTicker(symbol, price) => ProcessTicker(symbol, price);
      case OnBuyFill(order, price, quantity, now) => HandleOrderFill(order, price, quantity, now);
      case OnOrderClosed(order) => HandleOrderCancelOrExpire(order);
      case OnSellFill(order, price) => var _ := HandleSellFill(order, price);
      case OnPlacementDue(task, now) => RunDelayedPlacement(task, now);
      case OnReplacementDue(owner, now) => RunDelayedReplacement(owner, now);
      case OnPriceCheck(symbol, price) => CheckInvalidation(symbol, price);
    }

    /** The worker loop: events one at a time, in order. */
    method WorkerLoop(events: seq<Event>)
      requires Valid()
      modifies this, budget, positions.Values
      ensures Valid()
      ensures View() == Run(old(View()), events)
    {
      for i := 0 to |events|
        invariant Valid() && fresh(positions.Values - old(positions.Values))
        invariant Run(View(), events[i..]) == Run(old(View()), events)
      {
        assert events[i..][0] == events[i] && events[i..][1..] == events[i + 1..];
        Handle(events[i]);
      }
    }
  }
}
