/** Each change of a single position respects the rules of `PositionOk`. */
module BuyDipChanges {
  import opened Options
  import opened Money
  import opened BuyDipPositions
  import opened BuyDipEngine
  import opened BuyDipInvariants

  /** All the orders of a position stay good when only its top and level grow. */
  lemma BuysStayOk(c: Config, id: PositionId, p: Position, q: Position)
    requires c.Valid() && Evolves(p, q) && p.nextLevel == q.nextLevel && q.buyOrders == p.buyOrders
    requires forall i :: 0 <= i < |p.buyOrders| ==> BuyOk(c, id, p, p.buyOrders[i])
    ensures forall i :: 0 <= i < |q.buyOrders| ==> BuyOk(c, id, q, q.buyOrders[i])
  {
    forall i | 0 <= i < |q.buyOrders|
      ensures BuyOk(c, id, q, q.buyOrders[i])
    {
      assert BuyOk(c, id, p, p.buyOrders[i]);
      CeilingMonotone(c, p.topPrice.value, q.topPrice.value);
    }
  }

  ghost predicate Placeable(c: Config, id: PositionId, p: Position, order: OrderId, price: real)
  {
    && (p.state == PotentialTop || p.state == Active) && p.nextLevel < |c.distances|
    && !order.SellOf? && order.owner == id && order.level == p.nextLevel
    && p.topPrice.Some? && 0.0 < price <= Ceiling(c, p.topPrice.value)
  }

  lemma PlaceBuyOk(c: Config, id: PositionId, p: Position, order: OrderId, price: real, quantity: real)
    requires c.Valid() && PositionOk(c, id, p) && CanPlace(p) && Placeable(c, id, p, order, price) && quantity > 0.0
    ensures var q := PlaceBuy(p, order, price, quantity, p.nextLevel);
            && PositionOk(c, id, q) && Evolves(p, q)
            && Reserved(q) == Reserved(p) + Cost(price, quantity) && Booked(q) == Booked(p)
            && PendingCost(q) == Cost(price, quantity)
            && (forall o :: Live(q, o) <==> Live(p, o) || o == order)
  {
    var q := PlaceBuy(p, order, price, quantity, p.nextLevel);
    FilledCountAppend(p.buyOrders, q.buyOrders[|p.buyOrders|]);
    forall i | 0 <= i < |q.buyOrders|
      ensures BuyOk(c, id, q, q.buyOrders[i])
    {
      if i < |p.buyOrders| {
        assert BuyOk(c, id, p, p.buyOrders[i]);
      }
    }
  }

  /** Marking order `i` cancelled, when it is not a filled one, leaves the list good. */
  lemma MarkCanceledOk(c: Config, id: PositionId, p: Position, i: nat, q: Position)
    requires PositionOk(c, id, p) && i < |p.buyOrders| && p.buyOrders[i].status != Filled
    requires q.buyOrders == p.buyOrders[i := p.buyOrders[i].(status := Canceled)]
    requires q.nextLevel == p.nextLevel && q.topPrice == p.topPrice
    ensures FilledCount(q.buyOrders) == q.nextLevel
    ensures forall j :: 0 <= j < |q.buyOrders| ==> BuyOk(c, id, q, q.buyOrders[j])
  {
    FilledCountUpdate(p.buyOrders, i, q.buyOrders[i]);
    forall j | 0 <= j < |q.buyOrders|
      ensures BuyOk(c, id, q, q.buyOrders[j])
    {
      assert BuyOk(c, id, p, p.buyOrders[j]);
    }
  }

  /** The order a report names is never one that was filled before. */
  lemma NamedOrderIsNotFilled(c: Config, id: PositionId, p: Position)
    requires PositionOk(c, id, p) && PendingOrder(p).Some?
    ensures FindOrder(p.buyOrders, PendingOrder(p).value.id).Some?
    ensures var i := FindOrder(p.buyOrders, PendingOrder(p).value.id).value;
            p.buyOrders[i].status != Filled && p.buyOrders[i].level == p.nextLevel
  {
    var k := p.pending.value;
    var i := FindOrder(p.buyOrders, p.buyOrders[k].id).value;
    assert BuyOk(c, id, p, p.buyOrders[i]) && BuyOk(c, id, p, p.buyOrders[k]);
  }

  /** No earlier order carries the id of order `k`. */
  predicate IdIsNew(p: Position, k: nat)
    requires k < |p.buyOrders|
  {
    forall i :: 0 <= i < k ==> p.buyOrders[i].id != p.buyOrders[k].id
  }

  /** A fill of the pending order is entered in that order exactly when no earlier one carries
      its id; otherwise the first of those becomes FILLED and the pending one stays as it is. */
  lemma FillEntersPendingIff(c: Config, id: PositionId, p: Position, price: real, quantity: real)
    requires PositionOk(c, id, p) && PendingOrder(p).Some?
    ensures var k := p.pending.value;
            var q := Fill(p, p.buyOrders[k].id, price, quantity);
            && q.Some? && |q.value.buyOrders| == |p.buyOrders|
            && (q.value.buyOrders[k].status == Filled <==> IdIsNew(p, k))
            && (!IdIsNew(p, k) ==> q.value.buyOrders[k] == p.buyOrders[k])
  {
    NamedOrderIsNotFilled(c, id, p);
  }

  /** And a cancel likewise. */
  lemma CancelEntersPendingIff(c: Config, id: PositionId, p: Position)
    requires PositionOk(c, id, p) && PendingOrder(p).Some?
    ensures var k := p.pending.value;
            var q := Cancel(p, p.buyOrders[k].id);
            && q.Some? && |q.value.buyOrders| == |p.buyOrders|
            && (q.value.buyOrders[k].status == Canceled <==> IdIsNew(p, k))
            && (!IdIsNew(p, k) ==> q.value.buyOrders[k] == p.buyOrders[k])
  {
    NamedOrderIsNotFilled(c, id, p);
  }

  /** What giving up the pending order does to a position, however it is marked. */
  ghost predicate GaveUp(c: Config, id: PositionId, p: Position, q: Position)
  {
    && PositionOk(c, id, q) && Evolves(p, q) && q.pending == None && q.state == p.state
    && q.nextLevel == p.nextLevel && q.topPrice == p.topPrice && q.totalInvested == p.totalInvested
    && q.totalQuantity == p.totalQuantity && q.sellOrder == p.sellOrder
    && Reserved(q) == Reserved(p) - PendingCost(p) && Booked(q) == Booked(p)
    && (forall o :: Live(q, o) <==>
        Live(p, o) && Some(o) != (if PendingOrder(p).Some? then Some(PendingOrder(p).value.id) else None))
  }

  lemma DropPendingOk(c: Config, id: PositionId, p: Position)
    requires PositionOk(c, id, p) && PendingOrder(p).Some?
    ensures GaveUp(c, id, p, DropPending(p))
  {
    MarkCanceledOk(c, id, p, p.pending.value, DropPending(p));
    assert BuyOk(c, id, p, PendingOrder(p).value);
  }

  lemma CancelOk(c: Config, id: PositionId, p: Position)
    requires PositionOk(c, id, p) && PendingOrder(p).Some?
    ensures var q := Cancel(p, PendingOrder(p).value.id);
            q.Some? && GaveUp(c, id, p, q.value)
  {
    NamedOrderIsNotFilled(c, id, p);
    var i := FindOrder(p.buyOrders, PendingOrder(p).value.id).value;
    MarkCanceledOk(c, id, p, i, Cancel(p, PendingOrder(p).value.id).value);
    assert BuyOk(c, id, p, PendingOrder(p).value);
  }

  /** A raise of the top, the flag, the timestamp or the cooldown: nothing else moves. */
  lemma RaisedOk(c: Config, id: PositionId, p: Position, q: Position)
    requires c.Valid() && PositionOk(c, id, p)
    requires q == p.(topPrice := q.topPrice, justInvalidated := q.justInvalidated,
                     lastInvalidation := q.lastInvalidation, cooldownUntil := q.cooldownUntil)
    requires q.topPrice == p.topPrice ||
             (p.state == PotentialTop && q.topPrice.Some? && p.topPrice.value <= q.topPrice.value)
    requires p.state == Completed ==> q == p.(justInvalidated := q.justInvalidated)
    ensures PositionOk(c, id, q) && Evolves(p, q)
    ensures Reserved(q) == Reserved(p) && Booked(q) == Booked(p)
    ensures forall o :: Live(q, o) <==> Live(p, o)
  {
    BuysStayOk(c, id, p, q);
  }

  lemma WithTopOk(c: Config, id: PositionId, p: Position, top: real)
    requires c.Valid() && PositionOk(c, id, p) && p.state == Watching && top > 0.0
    ensures var q := WithTop(p, top);
            && PositionOk(c, id, q) && Evolves(p, q)
            && Reserved(q) == Reserved(p) && Booked(q) == Booked(p)
            && (forall o :: !Live(q, o) && !Live(p, o))
  {
  }

  // ----- Fills -----

  lemma AverageStaysExact(p: Position, price: real, quantity: real)
    requires price > 0.0 && quantity > 0.0 && p.totalQuantity >= 0.0 && p.totalInvested >= 0.0
    requires p.averageEntry.None? ==> p.totalQuantity == 0.0 && p.totalInvested == 0.0
    ensures var q := AddCost(p, price, Cost(price, quantity), quantity);
            && q.averageEntry.Some? && Cost(q.averageEntry.value, q.totalQuantity) == q.totalInvested
            && q.totalInvested > 0.0 && q.totalQuantity > 0.0
  {
    CostPositive(price, quantity);
    if p.averageEntry.Some? {
      var q := AddCost(p, price, Cost(price, quantity), quantity);
      RatioTimes(q.totalInvested, q.totalQuantity);
    }
  }

  /** The filled order is marked at the level just completed, under the same ceiling. */
  lemma FillBuysOk(c: Config, id: PositionId, p: Position, price: real, quantity: real)
    requires PositionOk(c, id, p) && PendingOrder(p).Some?
    ensures var q := Fill(p, PendingOrder(p).value.id, price, quantity);
            && q.Some? && FilledCount(q.value.buyOrders) == q.value.nextLevel
            && (forall j :: 0 <= j < |q.value.buyOrders| ==> BuyOk(c, id, q.value, q.value.buyOrders[j]))
  {
    var order := PendingOrder(p).value.id;
    NamedOrderIsNotFilled(c, id, p);
    var i := FindOrder(p.buyOrders, order).value;
    var q := Fill(p, order, price, quantity).value;
    FilledCountUpdate(p.buyOrders, i, q.buyOrders[i]);
    forall j | 0 <= j < |q.buyOrders|
      ensures BuyOk(c, id, q, q.buyOrders[j])
    {
      assert BuyOk(c, id, p, p.buyOrders[j]);
    }
  }

  lemma FillOk(c: Config, id: PositionId, p: Position, price: real, quantity: real)
    requires c.Valid() && PositionOk(c, id, p) && PendingOrder(p).Some? && price > 0.0 && quantity > 0.0
    ensures var q := Fill(p, PendingOrder(p).value.id, price, quantity);
            && q.Some? && PositionOk(c, id, q.value) && Evolves(p, q.value)
            && q.value.pending == None && q.value.state == Active && q.value.nextLevel == p.nextLevel + 1
            && q.value.totalInvested == p.totalInvested + Cost(price, quantity)
            && q.value.totalQuantity == p.totalQuantity + quantity
            && q.value.topPrice == p.topPrice && Booked(q.value) == Booked(p) == 0.0
            && Reserved(q.value) == Reserved(p) - PendingCost(p) + Cost(price, quantity)
            && (forall o :: Live(q.value, o) <==> Live(p, o) && o != PendingOrder(p).value.id)
  {
    FillBuysOk(c, id, p, price, quantity);
    AverageStaysExact(p, price, quantity);
    assert BuyOk(c, id, p, PendingOrder(p).value);
  }

  // ----- The sell side -----

  lemma PlaceSellOk(c: Config, id: PositionId, p: Position)
    requires c.Valid() && PositionOk(c, id, p) && p.state == Active && p.sellOrder.None?
    ensures SellPrice(p) == p.confirmedTop && p.confirmedTop.Some?
    ensures var q := PlaceSell(p, SellOf(id), SellPrice(p).value, p.totalQuantity);
            && PositionOk(c, id, q) && Evolves(p, q)
            && Reserved(q) == Reserved(p) && Booked(q) == Booked(p)
            && (forall o :: Live(q, o) <==> Live(p, o) || o == SellOf(id))
  {
    var q := PlaceSell(p, SellOf(id), SellPrice(p).value, p.totalQuantity);
    BuysStayOk(c, id, p, q);
  }

  lemma CancelSellOk(c: Config, id: PositionId, p: Position)
    requires c.Valid() && PositionOk(c, id, p) && p.state == Active && p.sellOrder.Some?
    ensures var q := p.(sellOrder := None);
            && PositionOk(c, id, q) && Evolves(p, q)
            && Reserved(q) == Reserved(p) && Booked(q) == Booked(p)
            && (forall o :: Live(q, o) <==> Live(p, o) && o != SellOf(id))
  {
    var q := p.(sellOrder := None);
    BuysStayOk(c, id, p, q);
    if PendingOrder(p).Some? {
      assert BuyOk(c, id, p, PendingOrder(p).value);
    }
  }

  lemma SellFillOk(c: Config, id: PositionId, p: Position, price: real)
    requires c.Valid() && PositionOk(c, id, p) && p.state == Active && p.pending == None && p.sellOrder.Some?
    ensures var q := SellFill(p, SellOf(id), price, p.totalQuantity);
            && q.Some? && PositionOk(c, id, q.value) && Evolves(p, q.value)
            && Reserved(q.value) == 0.0 && Reserved(p) == p.totalInvested
            && Booked(q.value) == Cost(price, p.totalQuantity) - p.totalInvested && Booked(p) == 0.0
            && q.value.totalInvested == p.totalInvested && q.value.nextLevel == p.nextLevel
            && (forall o :: !Live(q.value, o)) && (forall o :: Live(p, o) <==> o == SellOf(id))
  {
    var q := SellFill(p, SellOf(id), price, p.totalQuantity).value;
    BuysStayOk(c, id, p, q);
  }
}
