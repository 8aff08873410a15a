/**
 What holds between any two events of the Buy Dip engine, and what one change of one
 position has to respect so that it keeps holding.
 */
module BuyDipInvariants {
  import opened Options
  import opened Money
  import opened Budgets
  import opened BuyDipPositions
  import opened BuyDipEngine
  import opened MapSums

  // ----- One position -----

  /** Highest price any buy of a position with this top may carry. */
  function Ceiling(c: Config, top: real): real
  {
    if c.distances == [] then top else LevelPrice(top, c.distances[0])
  }

  function FilledCount(orders: seq<OrderInfo>): nat
  {
    if orders == [] then 0 else (if orders[0].status == Filled then 1 else 0) + FilledCount(orders[1..])
  }

  ghost predicate BuyOk(c: Config, id: PositionId, p: Position, o: OrderInfo)
  {
    && !o.id.SellOf? && o.id.owner == id && o.id.level == o.level
    && o.level <= p.nextLevel
    && (o.status == Filled ==> o.level < p.nextLevel)
    && 0.0 < o.price && 0.0 < o.quantity
    && p.topPrice.Some? && o.price <= Ceiling(c, p.topPrice.value)
  }

  ghost predicate PendingOk(c: Config, p: Position)
  {
    p.pending.Some? ==>
      && p.pending.value < |p.buyOrders|
      && p.buyOrders[p.pending.value].level == p.nextLevel < |c.distances|
      && p.buyOrders[p.pending.value].status == New
      && (p.state == PotentialTop || p.state == Active)
  }

  ghost predicate Untouched(p: Position)
  {
    && p.confirmedTop == None && p.sellOrder == None && p.nextLevel == 0
    && p.totalInvested == 0.0 && p.totalQuantity == 0.0 && p.averageEntry == None
  }

  ghost predicate Bought(c: Config, p: Position)
  {
    && p.topPrice.Some? && p.topPrice.value > 0.0 && p.confirmedTop == p.topPrice
    && 1 <= p.nextLevel <= |c.distances|
    && p.totalInvested > 0.0 && p.totalQuantity > 0.0
    && p.averageEntry.Some? && Cost(p.averageEntry.value, p.totalQuantity) == p.totalInvested
  }

  ghost predicate StateOk(c: Config, id: PositionId, p: Position)
  {
    match p.state
    case Watching => Untouched(p) && p.topPrice == None && p.buyOrders == []
    case PotentialTop => Untouched(p) && p.topPrice.Some? && p.topPrice.value > 0.0
    case Active =>
      Bought(c, p)
      && (p.sellOrder.Some? ==>
            p.sellOrder.value.id == SellOf(id) && p.sellOrder.value.status == New
            && p.confirmedTop == Some(p.sellOrder.value.price))
    case Completed =>
      Bought(c, p) && p.sellOrder.Some?
      && p.sellOrder.value.id == SellOf(id) && p.sellOrder.value.status == Filled
      && p.confirmedTop == Some(p.sellOrder.value.price)
      && p.sellOrder.value.filledPrice.Some? && p.sellOrder.value.filledQuantity == p.totalQuantity
    case Invalidated => false
  }

  ghost predicate PositionOk(c: Config, id: PositionId, p: Position)
  {
    && p.symbol == id.symbol
    && (forall i :: 0 <= i < |p.buyOrders| ==> BuyOk(c, id, p, p.buyOrders[i]))
    && FilledCount(p.buyOrders) == p.nextLevel
    && PendingOk(c, p)
    && StateOk(c, id, p)
  }

  /** The orders of a position that are waiting on the exchange. */
  predicate Live(p: Position, order: OrderId)
  {
    || (PendingOrder(p).Some? && PendingOrder(p).value.id == order)
    || (p.sellOrder.Some? && p.sellOrder.value.status == New && p.sellOrder.value.id == order)
  }

  // ----- The whole engine -----

  ghost predicate TaskOk(c: Config, ps: map<PositionId, Position>, t: Task)
  {
    && t.owner in ps && t.id == Dca(t.owner, 0)
    && ps[t.owner].state != Watching && ps[t.owner].topPrice.Some?
    && 0.0 < t.price <= Ceiling(c, ps[t.owner].topPrice.value)
  }

  ghost predicate TasksOk(c: Config, ps: map<PositionId, Position>, tasks: multiset<Task>)
  {
    forall t :: t in tasks ==> TaskOk(c, ps, t)
  }

  ghost predicate PositionsOk(c: Config, ps: map<PositionId, Position>)
  {
    forall id :: id in ps ==> PositionOk(c, id, ps[id])
  }

  ghost predicate BudgetOk(b: Budget)
  {
    b.available >= 0.0 && 0.0 < b.percentage <= 100.0 && b.minimum > 0.0
  }

  /** The order map holds exactly the live orders, each under its own position. */
  ghost predicate OwnersExact(s: Engine)
  {
    && (forall o :: o in s.orderOwner ==> s.orderOwner[o] == o.owner)
    && (forall o: OrderId :: o in s.orderOwner <==> o.owner in s.positions && Live(s.positions[o.owner], o))
  }

  predicate EachOnce(ids: seq<PositionId>)
  {
    forall i, j :: 0 <= i < j < |ids| ==> ids[i] != ids[j]
  }

  /** The index of a symbol lists exactly its positions, each once. */
  ghost predicate IndexExact(s: Engine)
  {
    && (forall symbol, id :: id in Ids(s, symbol) <==> id in s.positions && id.symbol == symbol)
    && (forall symbol :: EachOnce(Ids(s, symbol)))
  }

  ghost predicate Inv(s: Engine)
  {
    && s.config.Valid()
    && BudgetOk(s.budget)
    && PositionsOk(s.config, s.positions)
    && OwnersExact(s)
    && IndexExact(s)
    && TasksOk(s.config, s.positions, s.tasks)
    && s.scheduled == {}
  }

  // ----- Money -----

  function PendingCost(p: Position): real
  {
    match PendingOrder(p)
    case None => 0.0
    case Some(o) => Cost(o.price, o.quantity)
  }

  /** Budget locked on behalf of a position. */
  function Reserved(p: Position): real
  {
    PendingCost(p) + (if p.state == Completed then 0.0 else p.totalInvested)
  }

  /** Profit a completed position has put into the budget. */
  function Booked(p: Position): real
  {
    if p.state == Completed && p.sellOrder.Some? && p.sellOrder.value.filledPrice.Some? then
      Cost(p.sellOrder.value.filledPrice.value, p.sellOrder.value.filledQuantity) - p.totalInvested
    else 0.0
  }

  ghost function Drift(s: Engine): real
  {
    s.budget.locked - Sum(s.positions, Reserved)
  }

  ghost function Equity(s: Engine): real
  {
    s.budget.available + s.budget.locked - Sum(s.positions, Booked)
  }

  /** Every order placed so far was at least of the minimum size. */
  ghost predicate Backed(minimum: real, p: Position)
  {
    && (PendingOrder(p).Some? ==> PendingCost(p) >= minimum)
    && p.totalInvested >= minimum * (p.nextLevel as real)
  }

  ghost predicate AllBacked(s: Engine)
  {
    forall id :: id in s.positions ==> Backed(s.budget.minimum, s.positions[id])
  }

  // ----- How things change -----

  function Rank(st: PositionState): nat
  {
    match st
    case Watching => 0
    case PotentialTop => 1
    case Active => 2
    case Completed => 3
    case Invalidated => 4
  }

  /**
   A position only moves forward; its top only rises, and is fixed once confirmed; its
   totals change with its level and only then; once completed it does not change at all.
   */
  ghost predicate Evolves(p: Position, q: Position)
  {
    && q.symbol == p.symbol
    && Rank(p.state) <= Rank(q.state)
    && (p.topPrice.Some? ==> q.topPrice.Some? && p.topPrice.value <= q.topPrice.value)
    && (p.confirmedTop.Some? ==> q.confirmedTop == p.confirmedTop && q.topPrice == p.topPrice)
    && |p.buyOrders| <= |q.buyOrders| && p.nextLevel <= q.nextLevel
    && (q.nextLevel == p.nextLevel ==> q.totalInvested == p.totalInvested && q.totalQuantity == p.totalQuantity)
    && (q.nextLevel > p.nextLevel ==> q.totalQuantity > p.totalQuantity)
    && (p.state == Completed ==> q == p.(justInvalidated := q.justInvalidated))
  }

  predicate IsOpen(p: Position)
  {
    p.state == Watching || p.state == PotentialTop
  }

  ghost predicate Follows(s: Engine, t: Engine)
  {
    && t.config == s.config
    && t.budget.percentage == s.budget.percentage && t.budget.minimum == s.budget.minimum
    && s.positions.Keys <= t.positions.Keys
    && (forall id :: id in s.positions ==> Evolves(s.positions[id], t.positions[id]))
    && Equity(t) == Equity(s)
  }

  ghost predicate KeepsLedger(s: Engine, t: Engine)
  {
    Drift(t) == Drift(s) && (AllBacked(s) ==> AllBacked(t))
  }

  /** No position comes or goes, opens, closes or completes a level. */
  ghost predicate SameShape(s: Engine, t: Engine)
  {
    && t.positions.Keys == s.positions.Keys
    && (forall id :: id in s.positions ==>
          IsOpen(t.positions[id]) == IsOpen(s.positions[id]) && t.positions[id].nextLevel == s.positions[id].nextLevel)
  }

  predicate OpenAt(s: Engine, symbol: string, id: PositionId)
  {
    id in s.positions && id.symbol == symbol && IsOpen(s.positions[id])
  }

  ghost predicate HasOpen(s: Engine, symbol: string)
  {
    exists id :: OpenAt(s, symbol, id)
  }

  /** One position per symbol is watching or waiting at its top, once there is any. */
  ghost predicate OneOpen(s: Engine)
  {
    && (forall symbol, i, j :: OpenAt(s, symbol, i) && OpenAt(s, symbol, j) ==> i == j)
    && (forall i :: i in s.positions ==> HasOpen(s, i.symbol))
  }

  lemma SameShapeKeepsOneOpen(s: Engine, t: Engine)
    requires OneOpen(s) && SameShape(s, t)
    ensures OneOpen(t)
  {
    forall symbol, i | OpenAt(s, symbol, i)
      ensures OpenAt(t, symbol, i)
    {
    }
    forall i | i in t.positions
      ensures HasOpen(t, i.symbol)
    {
      assert HasOpen(s, i.symbol);
      var j :| OpenAt(s, i.symbol, j);
      assert OpenAt(t, i.symbol, j);
    }
    forall symbol, i, j | OpenAt(t, symbol, i) && OpenAt(t, symbol, j)
      ensures i == j
    {
      assert OpenAt(s, symbol, i) && OpenAt(s, symbol, j);
    }
  }

  lemma EvolvesTransitive(p: Position, q: Position, r: Position)
    requires Evolves(p, q) && Evolves(q, r)
    ensures Evolves(p, r)
  {
  }

  lemma FollowsTransitive(s: Engine, t: Engine, u: Engine)
    requires Follows(s, t) && Follows(t, u)
    ensures Follows(s, u)
  {
    forall id | id in s.positions
      ensures Evolves(s.positions[id], u.positions[id])
    {
      EvolvesTransitive(s.positions[id], t.positions[id], u.positions[id]);
    }
  }

  // ----- Arithmetic -----

  lemma LevelPriceMonotone(top: real, higher: real, distance: real)
    requires top <= higher && 0.0 < distance < 100.0
    ensures LevelPrice(top, distance) <= LevelPrice(higher, distance)
  {
    var share := 1.0 - distance / 100.0;
    assert (higher - top) * share >= 0.0;
  }

  lemma CeilingMonotone(c: Config, top: real, higher: real)
    requires c.Valid() && top <= higher
    ensures Ceiling(c, top) <= Ceiling(c, higher)
  {
    LevelPriceMonotone(top, higher, c.distances[0]);
  }

  /** Any level's price is positive and no higher than the first level's. */
  lemma LevelUnderCeiling(c: Config, top: real, level: nat)
    requires c.Valid() && level < |c.distances| && top > 0.0
    ensures 0.0 < LevelPrice(top, c.distances[level]) <= Ceiling(c, top)
  {
    var d0, d := c.distances[0], c.distances[level];
    assert d0 <= d;
    var share0, share := 1.0 - d0 / 100.0, 1.0 - d / 100.0;
    assert 0.0 < share <= share0;
    assert top * share > 0.0;
    assert top * (share0 - share) >= 0.0;
  }

  lemma CostOfShare(size: real, price: real)
    requires price > 0.0 && size > 0.0
    ensures Ratio(size, price) > 0.0 && Cost(price, Ratio(size, price)) == size
  {
    var q := size / price;
    assert q * price == size;
    assert q > 0.0;
  }

  lemma CostPositive(price: real, quantity: real)
    requires price > 0.0 && quantity > 0.0
    ensures Cost(price, quantity) > 0.0
  {
  }

  // ----- Order lists -----

  lemma {:induction false} FilledCountAppend(orders: seq<OrderInfo>, o: OrderInfo)
    ensures FilledCount(orders + [o]) == FilledCount(orders) + (if o.status == Filled then 1 else 0)
  {
    if orders != [] {
      assert (orders + [o])[1..] == orders[1..] + [o];
      FilledCountAppend(orders[1..], o);
    }
  }

  lemma {:induction false} FilledCountUpdate(orders: seq<OrderInfo>, i: nat, o: OrderInfo)
    requires i < |orders|
    ensures FilledCount(orders[i := o])
         == FilledCount(orders) + (if o.status == Filled then 1 else 0) - (if orders[i].status == Filled then 1 else 0)
  {
    if i > 0 {
      assert orders[i := o][1..] == orders[1..][i - 1 := o];
      FilledCountUpdate(orders[1..], i - 1, o);
    }
  }

  // ----- Replacing one position -----

  /** The order map agrees with the engine's after position `id` has become `p`. */
  ghost predicate OwnersAfter(s: Engine, owners: map<OrderId, PositionId>, id: PositionId, p: Position)
  {
    && (forall o :: o in owners ==> owners[o] == o.owner)
    && (forall o: OrderId :: o.owner == id ==> (o in owners <==> Live(p, o)))
    && (forall o: OrderId :: o.owner != id ==> (o in owners <==> o in s.orderOwner))
  }

  lemma ReplaceOneMoney(s: Engine, id: PositionId, p: Position, t: Engine)
    requires id in s.positions && t.positions == s.positions[id := p]
    ensures Drift(t) == Drift(s) + (t.budget.locked - s.budget.locked) - (Reserved(p) - Reserved(s.positions[id]))
    ensures Equity(t) == Equity(s) + (t.budget.available + t.budget.locked - s.budget.available - s.budget.locked)
                         - (Booked(p) - Booked(s.positions[id]))
  {
    SumUpdate(s.positions, Reserved, id, p);
    SumUpdate(s.positions, Booked, id, p);
  }

  lemma ReplaceOneTasks(c: Config, ps: map<PositionId, Position>, tasks: multiset<Task>, id: PositionId, p: Position)
    requires c.Valid() && id in ps && TasksOk(c, ps, tasks) && Evolves(ps[id], p)
    ensures TasksOk(c, ps[id := p], tasks)
  {
    forall x | x in tasks
      ensures TaskOk(c, ps[id := p], x)
    {
      assert TaskOk(c, ps, x);
      if x.owner == id {
        CeilingMonotone(c, ps[id].topPrice.value, p.topPrice.value);
      }
    }
  }

  lemma ReplaceOnePositions(c: Config, ps: map<PositionId, Position>, id: PositionId, p: Position)
    requires PositionsOk(c, ps) && PositionOk(c, id, p)
    ensures PositionsOk(c, ps[id := p])
  {
  }

  lemma ReplaceOneIndex(s: Engine, id: PositionId, t: Engine)
    requires IndexExact(s) && id in s.positions
    requires t.positions.Keys == s.positions.Keys && t.symbolIds == s.symbolIds
    ensures IndexExact(t)
  {
    assert forall symbol :: Ids(t, symbol) == Ids(s, symbol);
  }

  lemma ReplaceOneOwners(s: Engine, id: PositionId, p: Position, t: Engine)
    requires OwnersExact(s) && id in s.positions && OwnersAfter(s, t.orderOwner, id, p)
    requires t.positions == s.positions[id := p]
    ensures OwnersExact(t)
  {
  }

  /** A change of one position that respects its own rules keeps the engine's. */
  lemma ReplaceOne(s: Engine, id: PositionId, p: Position, t: Engine)
    requires Inv(s) && id in s.positions
    requires PositionOk(s.config, id, p) && Evolves(s.positions[id], p)
    requires BudgetOk(t.budget)
    requires OwnersAfter(s, t.orderOwner, id, p)
    requires t == s.(positions := s.positions[id := p], budget := t.budget, orderOwner := t.orderOwner)
    ensures Inv(t)
  {
    ReplaceOnePositions(s.config, s.positions, id, p);
    ReplaceOneTasks(s.config, s.positions, s.tasks, id, p);
    ReplaceOneOwners(s, id, p, t);
    ReplaceOneIndex(s, id, t);
  }
}
