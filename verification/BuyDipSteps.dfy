/** Each piece of an event keeps the engine's invariant and its two ledgers. */
module BuyDipSteps {
  import opened Options
  import opened Money
  import opened Budgets
  import opened BuyDipPositions
  import opened BuyDipEngine
  import opened BuyDipInvariants
  import opened BuyDipChanges
  import opened MapSums

  ghost predicate Good(s: Engine, t: Engine)
  {
    Inv(t) && Follows(s, t) && KeepsLedger(s, t) && SameShape(s, t)
  }

  lemma GoodTransitive(s: Engine, t: Engine, u: Engine)
    requires Good(s, t) && Good(t, u)
    ensures Good(s, u)
  {
    FollowsTransitive(s, t, u);
  }

  lemma InvFacts(s: Engine, id: PositionId)
    requires Inv(s) && id in s.positions
    ensures s.config.Valid() && BudgetOk(s.budget) && OwnersExact(s) && PositionOk(s.config, id, s.positions[id])
  {
  }

  lemma NothingChanges(s: Engine)
    requires Inv(s)
    ensures Good(s, s)
  {
  }

  lemma ReplacedFollows(s: Engine, id: PositionId, p: Position, t: Engine)
    requires id in s.positions && Evolves(s.positions[id], p) && Equity(t) == Equity(s)
    requires t.config == s.config && t.positions == s.positions[id := p]
    requires t.budget.percentage == s.budget.percentage && t.budget.minimum == s.budget.minimum
    ensures Follows(s, t)
  {
    forall j | j in s.positions
      ensures Evolves(s.positions[j], t.positions[j])
    {
      if j != id {
        assert t.positions[j] == s.positions[j];
      }
    }
  }

  lemma ReplacedBacked(s: Engine, id: PositionId, p: Position, t: Engine)
    requires id in s.positions && t.positions == s.positions[id := p] && t.budget.minimum == s.budget.minimum
    requires Backed(s.budget.minimum, s.positions[id]) ==> Backed(s.budget.minimum, p)
    ensures AllBacked(s) ==> AllBacked(t)
  {
  }

  /** The budget after a change of one position accounts for exactly that change. */
  ghost predicate Matched(b: Budget, p: Position, b': Budget, p': Position)
  {
    && BudgetOk(b')
    && b'.percentage == b.percentage && b'.minimum == b.minimum
    && b'.locked - b.locked == Reserved(p') - Reserved(p)
    && b'.available + b'.locked - b.available - b.locked == Booked(p') - Booked(p)
    && (Backed(b.minimum, p) ==> Backed(b.minimum, p'))
  }

  /** A change of one position that is matched by the budget and the order map. */
  lemma Replaced(s: Engine, id: PositionId, p: Position, b: Budget, owners: map<OrderId, PositionId>)
    requires Inv(s) && id in s.positions
    requires PositionOk(s.config, id, p) && Evolves(s.positions[id], p)
    requires IsOpen(p) == IsOpen(s.positions[id]) && p.nextLevel == s.positions[id].nextLevel
    requires Matched(s.budget, s.positions[id], b, p)
    requires OwnersAfter(s, owners, id, p)
    ensures Good(s, s.(positions := s.positions[id := p], budget := b, orderOwner := owners))
  {
    hide Inv, PositionOk, Evolves, Backed, AllBacked, Follows, OwnersAfter, Reserved, Booked, Equity, Drift;
    var t := s.(positions := s.positions[id := p], budget := b, orderOwner := owners);
    ReplaceOne(s, id, p, t);
    ReplaceOneMoney(s, id, p, t);
    ReplacedFollows(s, id, p, t);
    ReplacedBacked(s, id, p, t);
  }

  /** A change that moves no money: the budget stays as it is. */
  lemma ReplacedFree(s: Engine, id: PositionId, p: Position, owners: map<OrderId, PositionId>)
    requires Inv(s) && id in s.positions
    requires PositionOk(s.config, id, p) && Evolves(s.positions[id], p) && IsOpen(p) == IsOpen(s.positions[id])
    requires p.pending == s.positions[id].pending && p.buyOrders == s.positions[id].buyOrders
    requires p.totalInvested == s.positions[id].totalInvested && p.nextLevel == s.positions[id].nextLevel
    requires Reserved(p) == Reserved(s.positions[id]) && Booked(p) == Booked(s.positions[id])
    requires OwnersAfter(s, owners, id, p)
    ensures Good(s, s.(positions := s.positions[id := p], orderOwner := owners))
  {
    hide Reserved, Booked, PositionOk, Evolves;
    Replaced(s, id, p, s.budget, owners);
    assert s.(positions := s.positions[id := p], orderOwner := owners)
        == s.(positions := s.positions[id := p], budget := s.budget, orderOwner := owners);
  }

  lemma OwnersKept(s: Engine, id: PositionId, p: Position)
    requires OwnersExact(s) && id in s.positions
    requires forall o :: Live(p, o) <==> Live(s.positions[id], o)
    ensures OwnersAfter(s, s.orderOwner, id, p)
  {
  }

  lemma OwnersDropped(s: Engine, id: PositionId, p: Position, order: OrderId)
    requires OwnersExact(s) && id in s.positions && order.owner == id
    requires forall o :: Live(p, o) <==> Live(s.positions[id], o) && o != order
    ensures OwnersAfter(s, s.orderOwner - {order}, id, p)
  {
  }

  lemma OwnersAdded(s: Engine, id: PositionId, p: Position, order: OrderId)
    requires OwnersExact(s) && id in s.positions && order.owner == id
    requires forall o :: Live(p, o) <==> Live(s.positions[id], o) || o == order
    ensures OwnersAfter(s, s.orderOwner[order := id], id, p)
  {
  }

  /** Sums, invariant and ledger do not see the delayed placements. */
  lemma TasksChange(s: Engine, t: Engine)
    requires Inv(s) && t == s.(tasks := t.tasks) && TasksOk(s.config, s.positions, t.tasks)
    ensures Good(s, t)
  {
    assert forall symbol :: Ids(t, symbol) == Ids(s, symbol);
  }

  // ----- Buy orders -----

  lemma PlaceOrderKeeps(s: Engine, id: PositionId, price: real, order: OrderId)
    requires Inv(s)
    requires id in s.positions && CanPlace(s.positions[id]) ==> Placeable(s.config, id, s.positions[id], order, price)
    ensures Good(s, PlaceOrder(s, id, price, order))
  {
    if id in s.positions && CanPlace(s.positions[id]) && OrderSize(s.budget).Some? {
      var size := OrderSize(s.budget).value;
      OrderSizeIsCovered(s.budget);
      CostOfShare(size, price);
      PlaceBuyOk(s.config, id, s.positions[id], order, price, Ratio(size, price));
      var q := PlaceBuy(s.positions[id], order, price, Ratio(size, price), s.positions[id].nextLevel);
      OwnersAdded(s, id, q, order);
      Replaced(s, id, q, Lock(s.budget, size), s.orderOwner[order := id]);
    }
  }

  lemma PendingCostPositive(s: Engine, id: PositionId)
    requires Inv(s) && id in s.positions && PendingOrder(s.positions[id]).Some?
    ensures PendingCost(s.positions[id]) > 0.0
    ensures PendingOrder(s.positions[id]).value.id.owner == id && !PendingOrder(s.positions[id]).value.id.SellOf?
  {
    var o := PendingOrder(s.positions[id]).value;
    assert BuyOk(s.config, id, s.positions[id], o);
    CostPositive(o.price, o.quantity);
  }

  /** Giving up the pending order releases what it had locked. */
  lemma GaveUpKeeps(s: Engine, id: PositionId, q: Position)
    requires Inv(s) && id in s.positions && PendingOrder(s.positions[id]).Some?
    requires GaveUp(s.config, id, s.positions[id], q)
    requires PendingCost(s.positions[id]) > 0.0 && PendingOrder(s.positions[id]).value.id.owner == id
    ensures Good(s, s.(positions := s.positions[id := q],
                       budget := Release(s.budget, PendingCost(s.positions[id]), 0.0),
                       orderOwner := s.orderOwner - {PendingOrder(s.positions[id]).value.id}))
  {
    hide Inv, PositionOk, Evolves, Live, OwnersExact, Good;
    InvFacts(s, id);
    var order := PendingOrder(s.positions[id]).value.id;
    OwnersDropped(s, id, q, order);
    Replaced(s, id, q, Release(s.budget, PendingCost(s.positions[id]), 0.0), s.orderOwner - {order});
  }

  lemma ReleasePendingKeeps(s: Engine, id: PositionId)
    requires Inv(s)
    ensures Good(s, ReleasePending(s, id))
    ensures id in s.positions ==> ReleasePending(s, id).positions[id].pending == None
    ensures HandlerCancel(s, id) == ReleasePending(s, id)
  {
    if id in s.positions && PendingOrder(s.positions[id]).Some? {
      PendingCostPositive(s, id);
      DropPendingOk(s.config, id, s.positions[id]);
      GaveUpKeeps(s, id, DropPending(s.positions[id]));
    }
  }

  lemma OrderClosedKeeps(s: Engine, order: OrderId)
    requires Inv(s)
    ensures Good(s, OrderClosed(s, order))
  {
    if order in s.orderOwner && PendingOrder(s.positions[order.owner]).Some? &&
      PendingOrder(s.positions[order.owner]).value.id == order {
      var id := order.owner;
      PendingCostPositive(s, id);
      CancelOk(s.config, id, s.positions[id]);
      GaveUpKeeps(s, id, Cancel(s.positions[id], order).value);
    }
  }

  // ----- New highs -----

  /** A significant new high is at least the present top. */
  lemma SignificantIsHigher(c: Config, p: Position, high: real)
    requires c.Valid() && p.topPrice.Some? && p.topPrice.value > 0.0 && Significant(c, p, high)
    ensures high >= p.topPrice.value
  {
    var top := p.topPrice.value;
    RatioTimes(high - top, top);
    assert Ratio(high - top, top) >= 0.0;
  }

  /** A rewrite of a position's top or timing fields. */
  lemma RewriteKeeps(s: Engine, id: PositionId, q: Position)
    requires Inv(s) && id in s.positions
    requires q == s.positions[id].(topPrice := q.topPrice, justInvalidated := q.justInvalidated,
                                   lastInvalidation := q.lastInvalidation, cooldownUntil := q.cooldownUntil)
    requires q.topPrice == s.positions[id].topPrice ||
             (s.positions[id].state == PotentialTop && q.topPrice.Some? &&
              s.positions[id].topPrice.value <= q.topPrice.value)
    requires s.positions[id].state == Completed ==> q == s.positions[id].(justInvalidated := q.justInvalidated)
    ensures Good(s, Put(s, id, q))
  {
    hide Inv, PositionOk, Live, OwnersExact, Evolves, Good, Reserved, Booked;
    InvFacts(s, id);
    RaisedOk(s.config, id, s.positions[id], q);
    OwnersKept(s, id, q);
    ReplacedFree(s, id, q, s.orderOwner);
  }

  lemma RaiseTopKeeps(s: Engine, id: PositionId, high: real, timestamp: Option<int>, now: real)
    requires Inv(s) && id in s.positions && s.positions[id].state == PotentialTop
    requires s.positions[id].topPrice.Some? && s.positions[id].topPrice.value <= high
    ensures Good(s, RaiseTop(s, id, high, timestamp, now))
  {
    hide Inv, Good;
    RewriteKeeps(s, id, Raised(s.positions[id], high, timestamp, now + s.config.cooldown));
  }

  lemma PlaceReplacementKeeps(s: Engine, id: PositionId, now: real)
    requires Inv(s)
    requires id in s.positions ==> s.positions[id].state == PotentialTop
    ensures Good(s, PlaceReplacement(s, id, now))
  {
    if id in s.positions {
      var p := s.positions[id];
      LevelUnderCeiling(s.config, p.topPrice.value, 0);
      PlaceOrderKeeps(s, id, LevelPrice(p.topPrice.value, s.config.distances[0]),
                      DcaAt(id, p.nextLevel, Milliseconds(now)));
    }
  }

  /** Only position `id` is touched, and its state stays what it was. */
  ghost predicate Touches(s: Engine, t: Engine, id: PositionId)
  {
    && t.symbolIds == s.symbolIds && t.positions.Keys == s.positions.Keys && id in s.positions
    && t.positions[id].state == s.positions[id].state
    && (forall j :: j in s.positions && j != id ==> t.positions[j] == s.positions[j])
  }

  lemma PlacementTouches(s: Engine, id: PositionId, price: real, order: OrderId)
    requires id in s.positions
    ensures Touches(s, PlaceOrder(s, id, price, order), id)
  {
  }

  lemma CancelTouches(s: Engine, id: PositionId)
    requires id in s.positions
    ensures id in HandlerCancel(s, id).positions && Touches(s, HandlerCancel(s, id), id)
  {
  }

  lemma RaiseTouches(s: Engine, id: PositionId, high: real, timestamp: Option<int>, now: real)
    requires id in s.positions
    ensures var t := RaiseTop(s, id, high, timestamp, now); id in t.positions && Touches(s, t, id)
  {
  }

  lemma ReplacementTouches(s: Engine, id: PositionId, now: real)
    requires id in s.positions
    ensures Touches(s, PlaceReplacement(s, id, now), id)
  {
    hide PlaceOrder;
    if s.positions[id].topPrice.Some? {
      var d := if s.config.distances == [] then 0.0 else s.config.distances[0];
      var order := DcaAt(id, s.positions[id].nextLevel, Milliseconds(now));
      PlacementTouches(s, id, LevelPrice(s.positions[id].topPrice.value, d), order);
    }
  }

  lemma TouchesTransitive(s: Engine, t: Engine, u: Engine, id: PositionId)
    requires Touches(s, t, id) && Touches(t, u, id)
    ensures Touches(s, u, id)
  {
  }

  lemma ScheduledTouches(s: Engine, t: Engine, id: PositionId)
    requires Touches(s, t, id)
    ensures Touches(s, t.(scheduled := t.scheduled + {id}), id)
  {
  }

  lemma NothingTouched(s: Engine, id: PositionId)
    requires id in s.positions
    ensures Touches(s, s, id)
  {
  }

  lemma InvalidateFrame(s: Engine, id: PositionId, high: real, timestamp: Option<int>, now: real)
    requires id in s.positions
    ensures Touches(s, Invalidate(s, id, high, timestamp, now), id)
  {
    hide HandlerCancel, RaiseTop, PlaceReplacement, Significant, Touches;
    var s1 := HandlerCancel(s, id);
    CancelTouches(s, id);
    var s2 := RaiseTop(s1, id, high, timestamp, now);
    RaiseTouches(s1, id, high, timestamp, now);
    ReplacementTouches(s2, id, now);
    TouchesTransitive(s, s1, s2, id);
    TouchesTransitive(s, s2, PlaceReplacement(s2, id, now), id);
    ScheduledTouches(s, s2, id);
    NothingTouched(s, id);
  }

  lemma InvalidateKeeps(s: Engine, id: PositionId, high: real, timestamp: Option<int>, now: real)
    requires Inv(s) && id in s.positions && s.positions[id].state == PotentialTop
    ensures Good(s, Invalidate(s, id, high, timestamp, now))
  {
    hide TaskOk, OwnersExact, Backed, BuyOk;
    if Significant(s.config, s.positions[id], high) {
      SignificantIsHigher(s.config, s.positions[id], high);
      ReleasePendingKeeps(s, id);
      var s1 := ReleasePending(s, id);
      RaiseTopKeeps(s1, id, high, timestamp, now);
      var s2 := RaiseTop(s1, id, high, timestamp, now);
      GoodTransitive(s, s1, s2);
      PlaceReplacementKeeps(s2, id, now);
      GoodTransitive(s, s2, PlaceReplacement(s2, id, now));
    } else {
      NothingChanges(s);
    }
  }

  lemma {:induction false} InvalidateAllKeeps(s: Engine, ids: seq<PositionId>, high: real, timestamp: Option<int>,
                                              now: real)
    requires Inv(s)
    requires forall id :: id in ids ==> id in s.positions && s.positions[id].state == PotentialTop
    ensures Good(s, InvalidateAll(s, ids, high, timestamp, now))
    ensures InvalidateAll(s, ids, high, timestamp, now).symbolIds == s.symbolIds
    decreases |ids|
  {
    if ids == [] {
      NothingChanges(s);
    } else {
      assert ids[0] in ids;
      InvalidateKeeps(s, ids[0], high, timestamp, now);
      InvalidateFrame(s, ids[0], high, timestamp, now);
      var s1 := if HasTop(s.positions[ids[0]]) then Invalidate(s, ids[0], high, timestamp, now) else s;
      NothingChanges(s);
      InvalidateAllKeeps(s1, ids[1..], high, timestamp, now);
      GoodTransitive(s, s1, InvalidateAll(s1, ids[1..], high, timestamp, now));
    }
  }

  lemma NewHighKeeps(s: Engine, symbol: string, c: Candle, now: real)
    requires Inv(s)
    ensures Good(s, NewHigh(s, symbol, c, now))
  {
    InvalidateAllKeeps(s, InState(s.positions, Ids(s, symbol), PotentialTop), c.high, c.timestamp, now);
    NothingChanges(s);
  }

  // ----- Rising pattern -----

  lemma OpenAtTopKeeps(s: Engine, id: PositionId, high: real)
    requires Inv(s) && id in s.positions && s.positions[id].state == Watching && high > 0.0
    ensures Good(s, OpenAtTop(s, id, high))
  {
    var s1 := Put(s, id, WithTop(s.positions[id], high));
    WithTopOk(s.config, id, s.positions[id], high);
    OwnersKept(s, id, s1.positions[id]);
    ReplacedFree(s, id, s1.positions[id], s.orderOwner);
    LevelUnderCeiling(s.config, high, 0);
    PlaceOrderKeeps(s1, id, LevelPrice(high, s.config.distances[0]), Dca(id, 0));
    GoodTransitive(s, s1, OpenAtTop(s, id, high));
  }

  lemma AddsOne(s: Engine, id: PositionId, p: Position)
    ensures AddPosition(s, id, p).positions == s.positions[id := p]
  {
  }

  /** A new watching position under an unused id. */
  lemma AddPositionIndex(s: Engine, id: PositionId, p: Position)
    requires IndexExact(s) && id !in s.positions && p.symbol == id.symbol
    ensures IndexExact(AddPosition(s, id, p))
  {
    var t := AddPosition(s, id, p);
    var before := Ids(s, p.symbol);
    assert id !in before;
    forall symbol
      ensures Ids(t, symbol) == if symbol == p.symbol then before + [id] else Ids(s, symbol)
    {
    }
    hide Ids, AddPosition;
    assert t.positions == s.positions[id := p] by { AddsOne(s, id, p); }
    forall symbol, j
      ensures j in Ids(t, symbol) <==> j in t.positions && j.symbol == symbol
    {
      assert j in Ids(s, symbol) <==> j in s.positions && j.symbol == symbol;
    }
  }

  lemma AddPositionTasks(c: Config, ps: map<PositionId, Position>, tasks: multiset<Task>, id: PositionId, p: Position)
    requires TasksOk(c, ps, tasks) && id !in ps
    ensures TasksOk(c, ps[id := p], tasks)
  {
    forall x | x in tasks
      ensures TaskOk(c, ps[id := p], x)
    {
      assert TaskOk(c, ps, x);
    }
  }

  lemma AddPositionKeeps(s: Engine, id: PositionId)
    requires Inv(s) && id !in s.positions
    ensures Inv(AddPosition(s, id, Fresh(id.symbol)))
  {
    var p := Fresh(id.symbol);
    ReplaceOnePositions(s.config, s.positions, id, p);
    AddPositionTasks(s.config, s.positions, s.tasks, id, p);
    AddPositionIndex(s, id, p);
    assert forall o :: !Live(p, o);
    hide PositionsOk, TasksOk, IndexExact, Live;
  }

  lemma AddPositionMoney(s: Engine, id: PositionId)
    requires id !in s.positions
    ensures var t := AddPosition(s, id, Fresh(id.symbol));
            Follows(s, t) && KeepsLedger(s, t)
  {
    var p := Fresh(id.symbol);
    SumUpdate(s.positions, Reserved, id, p);
    SumUpdate(s.positions, Booked, id, p);
    assert Backed(s.budget.minimum, p);
  }

  // ----- Delayed placements -----

  lemma ScheduleOneKeeps(s: Engine, id: PositionId, c: Candle, now: real)
    requires Inv(s) && id in s.positions && s.positions[id].state == PotentialTop
    ensures Good(s, ScheduleOne(s, id, c, now))
    ensures ScheduleOne(s, id, c, now).positions == s.positions
  {
    NothingChanges(s);
    if ReadyToSchedule(s.positions[id], c, now) {
      LevelUnderCeiling(s.config, s.positions[id].topPrice.value, 0);
      TasksChange(s, ScheduleOne(s, id, c, now));
    }
  }

  lemma {:induction false} ScheduleAllKeeps(s: Engine, ids: seq<PositionId>, c: Candle, now: real)
    requires Inv(s)
    requires forall id :: id in ids ==> id in s.positions && s.positions[id].state == PotentialTop
    ensures Good(s, ScheduleAll(s, ids, c, now))
    decreases |ids|
  {
    NothingChanges(s);
    if ids != [] {
      assert ids[0] in ids;
      ScheduleOneKeeps(s, ids[0], c, now);
      var s1 := ScheduleOne(s, ids[0], c, now);
      ScheduleAllKeeps(s1, ids[1..], c, now);
      GoodTransitive(s, s1, ScheduleAll(s1, ids[1..], c, now));
    }
  }

  lemma {:induction false} ClearFlagsKeeps(s: Engine, ids: seq<PositionId>)
    requires Inv(s)
    ensures Good(s, ClearFlags(s, ids))
    decreases |ids|
  {
    NothingChanges(s);
    if ids != [] {
      if ids[0] in s.positions {
        var s1 := Put(s, ids[0], s.positions[ids[0]].(justInvalidated := false));
        RewriteKeeps(s, ids[0], s1.positions[ids[0]]);
        ClearFlagsKeeps(s1, ids[1..]);
        GoodTransitive(s, s1, ClearFlags(s1, ids[1..]));
      } else {
        ClearFlagsKeeps(s, ids[1..]);
      }
    }
  }

  // ----- Fills -----

  lemma PlaceNextLevelKeeps(s: Engine, id: PositionId)
    requires Inv(s)
    ensures Good(s, PlaceNextLevel(s, id))
  {
    NothingChanges(s);
    if id in s.positions {
      var p := s.positions[id];
      if p.state == Active && CanPlace(p) && p.nextLevel < |s.config.distances| {
        LevelUnderCeiling(s.config, p.confirmedTop.value, p.nextLevel);
        PlaceOrderKeeps(s, id, LevelPrice(p.confirmedTop.value, s.config.distances[p.nextLevel]), Dca(id, p.nextLevel));
      }
    }
  }

  // ----- The sell side -----

  lemma ManageSellFrame(s: Engine, id: PositionId, price: real)
    requires OwnersExact(s)
    ensures var t := ManageSell(s, id, price);
            t.positions.Keys == s.positions.Keys &&
            (forall j :: j in s.positions ==> t.positions[j].state == s.positions[j].state)
  {
  }

  lemma PlaceSellOrderKeeps(s: Engine, id: PositionId)
    requires Inv(s) && id in s.positions && s.positions[id].state == Active && s.positions[id].sellOrder.None?
    ensures Good(s, PlaceSellOrder(s, id, SellOf(id)))
  {
    hide Inv, Live, Evolves, Good, Reserved, Booked, OwnersExact;
    InvFacts(s, id);
    var p := s.positions[id];
    PlaceSellOk(s.config, id, p);
    var q := PlaceSell(p, SellOf(id), SellPrice(p).value, p.totalQuantity);
    OwnersAdded(s, id, q, SellOf(id));
    ReplacedFree(s, id, q, s.orderOwner[SellOf(id) := id]);
  }

  lemma SellOrderIsOwned(s: Engine, id: PositionId)
    requires Inv(s) && id in s.positions && s.positions[id].state == Active && s.positions[id].sellOrder.Some?
    ensures s.positions[id].sellOrder.value.id == SellOf(id)
    ensures SellOf(id) in s.orderOwner && s.orderOwner[SellOf(id)] == id
  {
    assert PositionOk(s.config, id, s.positions[id]) && Live(s.positions[id], SellOf(id));
  }

  lemma CancelSellOrderKeeps(s: Engine, id: PositionId)
    requires Inv(s) && id in s.positions && s.positions[id].state == Active && s.positions[id].sellOrder.Some?
    ensures Good(s, CancelSellOrder(s, SellOf(id)))
  {
    hide Inv, PositionOk, Live, Evolves, Good, Reserved, Booked, OwnersExact;
    InvFacts(s, id);
    SellOrderIsOwned(s, id);
    var q := s.positions[id].(sellOrder := None);
    CancelSellOk(s.config, id, s.positions[id]);
    OwnersDropped(s, id, q, SellOf(id));
    ReplacedFree(s, id, q, s.orderOwner - {SellOf(id)});
  }

  lemma ManageSellKeeps(s: Engine, id: PositionId, price: real)
    requires Inv(s) && id in s.positions && s.positions[id].state == Active
    ensures Good(s, ManageSell(s, id, price))
  {
    NothingChanges(s);
    if s.positions[id].sellOrder.None? {
      PlaceSellOrderKeeps(s, id);
    } else {
      SellOrderIsOwned(s, id);
      CancelSellOrderKeeps(s, id);
    }
    hide Inv, Good, PlaceSellOrder, CancelSellOrder;
  }

  lemma {:induction false} ManageSellsKeeps(s: Engine, ids: seq<PositionId>, price: real)
    requires Inv(s)
    requires forall id :: id in ids ==> id in s.positions && s.positions[id].state == Active
    ensures Good(s, ManageSells(s, ids, price))
    decreases |ids|
  {
    NothingChanges(s);
    if ids != [] {
      assert ids[0] in ids;
      ManageSellKeeps(s, ids[0], price);
      ManageSellFrame(s, ids[0], price);
      var s1 := ManageSell(s, ids[0], price);
      ManageSellsKeeps(s1, ids[1..], price);
      GoodTransitive(s, s1, ManageSells(s1, ids[1..], price));
    }
  }

  /** A sale pays back what was invested plus the profit: the proceeds. */
  lemma SaleMatched(s: Engine, id: PositionId, price: real)
    requires Inv(s) && id in s.positions && s.positions[id].pending == None && price >= 0.0
    requires s.positions[id].state == Active && s.positions[id].sellOrder.Some?
    ensures var p := s.positions[id];
            var q := SellFill(p, SellOf(id), price, p.totalQuantity);
            var b := Release(s.budget, p.totalInvested, Cost(price, p.totalQuantity) - p.totalInvested);
            q.Some? && Matched(s.budget, p, b, q.value)
  {
    hide TaskOk, BuyOk;
    SellFillOk(s.config, id, s.positions[id], price);
    assert PositionOk(s.config, id, s.positions[id]);
    assert Cost(price, s.positions[id].totalQuantity) >= 0.0;
  }

  lemma SaleKeeps(s: Engine, id: PositionId, price: real)
    requires Inv(s) && id in s.positions && s.positions[id].pending == None && price >= 0.0
    requires s.positions[id].state == Active && s.positions[id].sellOrder.Some?
    ensures Good(s, CloseWithSale(s, SellOf(id), id, price))
  {
    hide Inv, PositionOk, Live, Evolves, Good, Reserved, Booked, Matched, OwnersExact;
    InvFacts(s, id);
    SaleMatched(s, id, price);
    var p := s.positions[id];
    SellFillOk(s.config, id, p, price);
    var q := SellFill(p, SellOf(id), price, p.totalQuantity).value;
    OwnersDropped(s, id, q, SellOf(id));
    Replaced(s, id, q, Release(s.budget, p.totalInvested, Cost(price, p.totalQuantity) - p.totalInvested),
             s.orderOwner - {SellOf(id)});
  }

  lemma CloseWithSaleKeeps(s: Engine, order: OrderId, id: PositionId, price: real)
    requires Inv(s) && id in s.positions && s.positions[id].pending == None && price >= 0.0
    requires order.owner == id && (order in s.orderOwner || !order.SellOf?)
    ensures Good(s, CloseWithSale(s, order, id, price))
  {
    var p := s.positions[id];
    if p.sellOrder.Some? && p.sellOrder.value.id == order {
      assert order == SellOf(id) && p.state == Active by {
        assert PositionOk(s.config, id, p) && (order.SellOf? ==> Live(p, order));
      }
      SaleKeeps(s, id, price);
    } else {
      NothingChanges(s);
    }
    hide Inv, Good;
  }

  /** No waiting position has a confirmed top, so the price check never finds one. */
  lemma {:induction false} CheckAllFindsNothing(s: Engine, ids: seq<PositionId>, price: real)
    requires Inv(s)
    requires forall id :: id in ids ==> id in s.positions && s.positions[id].state == PotentialTop
    ensures CheckAll(s, ids, price) == s
    decreases |ids|
  {
    if ids != [] {
      assert ids[0] in ids;
      assert PositionOk(s.config, ids[0], s.positions[ids[0]]);
      CheckAllFindsNothing(s, ids[1..], price);
    }
  }
}
