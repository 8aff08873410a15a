/**
 One Buy Dip position: its states, its buy and sell orders, its money totals.

 The value `Position` is what a position object holds at one moment; the functions say
 what each method makes of it, and class `BuyDipPosition` carries the methods out in
 place. The pending order is the source's shared reference into `buy_orders`, modelled
 as the index of that entry.
 */
module BuyDipPositions {
  import opened Options
  import opened Money

  /** `{symbol}_watching`, `{symbol}_watching_{ms}` and `{symbol}_{timestamp}`. */
  datatype PositionId =
    | BaseId(symbol: string)
    | StampedId(symbol: string, ms: int)
    | TopId(symbol: string, timestamp: int)

  /** `{position}_dca_{level}`, `{position}_dca_{level}_{ms}` and `{position}_sell`. */
  datatype OrderId =
    | Dca(owner: PositionId, level: nat)
    | DcaAt(owner: PositionId, level: nat, ms: int)
    | SellOf(owner: PositionId)

  datatype OrderStatus = New | Filled | Canceled

  datatype PositionState = Watching | PotentialTop | Active | Completed | Invalidated

  datatype OrderInfo = OrderInfo(
    id: OrderId,
    price: real,
    quantity: real,
    level: int,
    status: OrderStatus,
    filledQuantity: real,
    filledPrice: Option<real>)

  datatype Position = Position(
    symbol: string,
    state: PositionState,
    topPrice: Option<real>,
    confirmedTop: Option<real>,
    buyOrders: seq<OrderInfo>,
    pending: Option<nat>,
    sellOrder: Option<OrderInfo>,
    totalInvested: real,
    averageEntry: Option<real>,
    totalQuantity: real,
    nextLevel: nat,
    lastInvalidation: Option<int>,
    justInvalidated: bool,
    cooldownUntil: Option<real>)

  function Fresh(symbol: string): Position
  {
    Position(symbol, Watching, None, None, [], None, None, 0.0, None, 0.0, 0, None, false, None)
  }

  function CanPlace(p: Position): bool
  {
    p.pending.None?
  }

  function PendingOrder(p: Position): Option<OrderInfo>
  {
    if p.pending.Some? && p.pending.value < |p.buyOrders| then Some(p.buyOrders[p.pending.value]) else None
  }

  function PlaceBuy(p: Position, id: OrderId, price: real, quantity: real, level: int): Position
  {
    p.(buyOrders := p.buyOrders + [OrderInfo(id, price, quantity, level, New, 0.0, None)],
       pending := Some(|p.buyOrders|))
  }

  /** The first order carrying the id: ids are reused, so there may be several. */
  function FindOrder(orders: seq<OrderInfo>, id: OrderId): (r: Option<nat>)
    ensures r.None? ==> forall i :: 0 <= i < |orders| ==> orders[i].id != id
    ensures r.Some? ==> r.value < |orders| && orders[r.value].id == id
                        && forall i :: 0 <= i < r.value ==> orders[i].id != id
  {
    if orders == [] then None
    else if orders[0].id == id then Some(0)
    else match FindOrder(orders[1..], id)
      case None => None
      case Some(i) => assert orders[1..][i] == orders[i + 1]; Some(i + 1)
  }

  /** The pending order is dropped when it carries the id of the order just closed. */
  function PendingAfter(p: Position, id: OrderId): Option<nat>
  {
    if PendingOrder(p).Some? && PendingOrder(p).value.id == id then None else p.pending
  }

  /** Position totals after one more buy, `cost` being what it cost. */
  function AddCost(p: Position, price: real, cost: real, quantity: real): Position
  {
    var invested := p.totalInvested + cost;
    var total := p.totalQuantity + quantity;
    p.(totalInvested := invested,
       totalQuantity := total,
       averageEntry := Some(if p.averageEntry.None? then price else Ratio(invested, total)))
  }

  function Fill(p: Position, id: OrderId, price: real, quantity: real): Option<Position>
  {
    match FindOrder(p.buyOrders, id)
    case None => None
    case Some(i) =>
      var filled := p.buyOrders[i].(status := Filled, filledPrice := Some(price), filledQuantity := quantity);
      var first := p.state == PotentialTop;
      Some(AddCost(p, price, Cost(price, quantity), quantity).(
        buyOrders := p.buyOrders[i := filled],
        pending := PendingAfter(p, id),
        state := if first then Active else p.state,
        confirmedTop := if first then p.topPrice else p.confirmedTop,
        nextLevel := p.nextLevel + 1))
  }

  function Cancel(p: Position, id: OrderId): Option<Position>
  {
    match FindOrder(p.buyOrders, id)
    case None => None
    case Some(i) =>
      Some(p.(buyOrders := p.buyOrders[i := p.buyOrders[i].(status := Canceled)],
              pending := PendingAfter(p, id)))
  }

  /** Cancelling through the pending reference itself rather than by id. */
  function DropPending(p: Position): Position
  {
    if PendingOrder(p).None? then p
    else p.(buyOrders := p.buyOrders[p.pending.value := p.buyOrders[p.pending.value].(status := Canceled)],
            pending := None)
  }

  function WithTop(p: Position, top: real): Position
  {
    p.(topPrice := Some(top), state := PotentialTop)
  }

  function PlaceSell(p: Position, id: OrderId, price: real, quantity: real): Position
  {
    p.(sellOrder := Some(OrderInfo(id, price, quantity, -1, New, 0.0, None)))
  }

  function SellFill(p: Position, id: OrderId, price: real, quantity: real): Option<Position>
  {
    if p.sellOrder.None? || p.sellOrder.value.id != id then None
    else
      var sold := p.sellOrder.value.(status := Filled, filledPrice := Some(price), filledQuantity := quantity);
      Some(p.(sellOrder := Some(sold), state := Completed))
  }

  /** Profit of a completed position; the source also answers None for a fill price of 0. */
  function Profit(p: Position): Option<real>
  {
    if p.state != Completed || p.sellOrder.None? then None
    else match p.sellOrder.value.filledPrice
      case None => None
      case Some(price) =>
        if price == 0.0 then None
        else Some(Cost(price, p.sellOrder.value.filledQuantity) - p.totalInvested)
  }

  class BuyDipPosition {
    const id: PositionId
    const symbol: string
    var state: PositionState
    var topPrice: Option<real>
    var confirmedTop: Option<real>
    var buyOrders: seq<OrderInfo>
    var pendingOrder: Option<nat>
    var sellOrder: Option<OrderInfo>
    var totalInvested: real
    var averageEntry: Option<real>
    var totalQuantity: real
    var nextDcaLevel: nat
    var lastInvalidationTs: Option<int>
    var justInvalidated: bool
    var cooldownUntil: Option<real>

    constructor (id: PositionId, symbol: string)
      ensures this.id == id && View() == Fresh(symbol)
    {
      this.id, this.symbol := id, symbol;
      state, topPrice, confirmedTop := Watching, None, None;
      buyOrders, pendingOrder, sellOrder := [], None, None;
      totalInvested, averageEntry, totalQuantity, nextDcaLevel := 0.0, None, 0.0, 0;
      lastInvalidationTs, justInvalidated, cooldownUntil := None, false, None;
    }

    function View(): Position
      reads this
    {
      Position(symbol, state, topPrice, confirmedTop, buyOrders, pendingOrder, sellOrder, totalInvested,
               averageEntry, totalQuantity, nextDcaLevel, lastInvalidationTs, justInvalidated, cooldownUntil)
    }

    predicate CanPlaceOrder()
      reads this
    {
      pendingOrder.None?
    }

    method PlaceBuyOrder(id: OrderId, price: real, quantity: real, level: int) returns (ok: bool)
      modifies this
      ensures ok == CanPlace(old(View()))
      ensures View() == if ok then PlaceBuy(old(View()), id, price, quantity, level) else old(View())
    {
      if !CanPlaceOrder() {
        return false;
      }
      pendingOrder := Some(|buyOrders|);
      buyOrders := buyOrders + [OrderInfo(id, price, quantity, level, New, 0.0, None)];
      ok := true;
    }

    method IndexOf(id: OrderId) returns (found: Option<nat>)
      ensures found == FindOrder(buyOrders, id)
    {
      for i := 0 to |buyOrders|
        invariant forall j :: 0 <= j < i ==> buyOrders[j].id != id
      {
        if buyOrders[i].id == id {
          return Some(i);
        }
      }
      found := None;
    }

    method AddToTotals(price: real, cost: real, quantity: real)
      modifies this
      ensures View() == AddCost(old(View()), price, cost, quantity)
    {
      totalInvested := totalInvested + cost;
      totalQuantity := totalQuantity + quantity;
      averageEntry := if averageEntry.None? then Some(price) else Some(Ratio(totalInvested, totalQuantity));
    }

    method HandleOrderFill(id: OrderId, price: real, quantity: real) returns (ok: bool)
      modifies this
      ensures ok == Fill(old(View()), id, price, quantity).Some?
      ensures View() == if ok then Fill(old(View()), id, price, quantity).value else old(View())
    {
      hide Cost, FindOrder, Ratio;
      var found := IndexOf(id);
      if found.None? {
        return false;
      }
      var i := found.value;
      var clearPending := pendingOrder.Some? && pendingOrder.value < |buyOrders| &&
        buyOrders[pendingOrder.value].id == id;
      AddToTotals(price, Cost(price, quantity), quantity);
      buyOrders := buyOrders[i := buyOrders[i].(status := Filled, filledPrice := Some(price),
                                                filledQuantity := quantity)];
      if clearPending {
        pendingOrder := None;
      }
      if state == PotentialTop {
        state := Active;
        confirmedTop := topPrice;
      }
      nextDcaLevel := nextDcaLevel + 1;
      ok := true;
    }

    method HandleOrderCancel(id: OrderId) returns (ok: bool)
      modifies this
      ensures ok == Cancel(old(View()), id).Some?
      ensures View() == if ok then Cancel(old(View()), id).value else old(View())
    {
      var found := IndexOf(id);
      if found.None? {
        return false;
      }
      var i := found.value;
      var clearPending := pendingOrder.Some? && pendingOrder.value < |buyOrders| &&
        buyOrders[pendingOrder.value].id == id;
      buyOrders := buyOrders[i := buyOrders[i].(status := Canceled)];
      if clearPending {
        pendingOrder := None;
      }
      ok := true;
    }

    method CancelPending()
      modifies this
      ensures View() == DropPending(old(View()))
    {
      if pendingOrder.Some? && pendingOrder.value < |buyOrders| {
        buyOrders := buyOrders[pendingOrder.value := buyOrders[pendingOrder.value].(status := Canceled)];
        pendingOrder := None;
      }
    }

    method SetPotentialTop(top: real)
      modifies this
      ensures View() == WithTop(old(View()), top)
    {
      topPrice := Some(top);
      state := PotentialTop;
    }

    method PlaceSellOrder(id: OrderId, price: real, quantity: real)
      modifies this
      ensures View() == PlaceSell(old(View()), id, price, quantity)
    {
      sellOrder := Some(OrderInfo(id, price, quantity, -1, New, 0.0, None));
    }

    method HandleSellFill(id: OrderId, price: real, quantity: real) returns (ok: bool)
      modifies this
      ensures ok == SellFill(old(View()), id, price, quantity).Some?
      ensures View() == if ok then SellFill(old(View()), id, price, quantity).value else old(View())
    {
      if sellOrder.None? || sellOrder.value.id != id {
        return false;
      }
      sellOrder := Some(sellOrder.value.(status := Filled, filledPrice := Some(price), filledQuantity := quantity));
      state := Completed;
      ok := true;
    }

    method GetProfit() returns (profit: Option<real>)
      ensures profit == Profit(View())
    {
      if state != Completed {
        return None;
      }
      if sellOrder.None? || sellOrder.value.filledPrice.None? || sellOrder.value.filledPrice.value == 0.0 {
        return None;
      }
      var revenue := Cost(sellOrder.value.filledPrice.value, sellOrder.value.filledQuantity);
      profit := Some(revenue - totalInvested);
    }
  }
}
