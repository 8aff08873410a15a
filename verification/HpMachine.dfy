/**
 The HP strategy: one buy order, one sell position at a time (a single leg, or two legs
 sold one after the other), and a table of guarded transitions. The exchange is the pair
 of sets of the strategy's orders that are open there.
 */
module HpMachine {
  import opened Options
  import opened Money

  datatype State =
    | New | Buying | PartiallyBought | Bought | ReadyToSell | Selling | PartiallySold
    | Sold | PartSoldPartBought | SoldPartBought | Closed | WaitingChild

  datatype Status = StNew | StPartial | StFilled | StCanceled | StExpired | StOther

  /** An unsent order has the empty id. */
  datatype Order = Order(id: string, price: real, quantity: real, quantityStable: real, realized: real, status: Status)

  datatype Symbol = Symbol(name: string, adjustPrice: real -> real, adjustQuantity: real -> real)

  datatype BuyConfig = BuyConfig(symbol: Symbol, buyPrice: real, trigger: real, budget: real)

  datatype Leg = Leg(order: Order, side: State, symbol: Symbol, quantity: real, sellPrice: real, direct: bool)

  /** What the position as a whole is to be sold for, and the rounding of quote amounts. */
  datatype Target = Target(symbol: Symbol, sellPrice: real, quantity: real, round8: real -> real)

  datatype BuySide = BuySide(config: BuyConfig, side: State, order: Option<Order>, cancelPrice: real)

  datatype Cursor = OnLeg(index: nat) | OffLegs

  /** `off` is the current position when there are no legs, and what replaces the second
      leg once both are sold. */
  datatype SellSide = SellSide(target: Target, legs: seq<Leg>, cursor: Cursor, off: Leg)

  datatype Exchange = Exchange(buys: set<string>, sells: set<string>)

  datatype Hp = Hp(state: State, balance: real, buy: BuySide, sell: SellSide, open: Exchange, running: bool)

  /** `reply` is the id the exchange gives to an order sent in the event, `feed` the last known
      price of the second leg's symbol (0 when there is none). */
  datatype Event =
    | Ticker(symbol: string, price: real, reply: string, feed: real)
    | Signal(allFilled: bool, reply: string, feed: real)
    | Report(limit: bool, market: bool, status: Status, id: string, symbol: string,
             cumulative: real, lastQuantity: real, lastPrice: real)
    | Closes(id: string)

  // ----- The sell side -----

  predicate WellFormed(s: SellSide)
  {
    |s.legs| <= 2 && (s.cursor.OnLeg? ==> s.cursor.index < |s.legs|)
  }

  function Current(s: SellSide): Leg
  {
    if s.cursor.OnLeg? && s.cursor.index < |s.legs| then s.legs[s.cursor.index] else s.off
  }

  function WithCurrent(s: SellSide, leg: Leg): SellSide
  {
    if s.cursor.OnLeg? && s.cursor.index < |s.legs| then s.(legs := s.legs[s.cursor.index := leg]) else s.(off := leg)
  }

  function SellState(h: Hp): State
  {
    Current(h.sell).side
  }

  function SellOrder(h: Hp): Order
  {
    Current(h.sell).order
  }

  function SetSell(h: Hp, leg: Leg): Hp
  {
    h.(sell := WithCurrent(h.sell, leg))
  }

  function SetBuyState(h: Hp, st: State): Hp
  {
    h.(buy := h.buy.(side := st))
  }

  function SetSellState(h: Hp, st: State): Hp
  {
    SetSell(h, Current(h.sell).(side := st))
  }

  function Halt(h: Hp): Hp
  {
    h.(running := false)
  }

  function SellSendPrice(s: SellSide): real
  {
    s.target.symbol.adjustPrice(if Current(s).direct then 0.96 * s.target.sellPrice else s.target.sellPrice)
  }

  function SellCancelPrice(s: SellSide): real
  {
    s.target.symbol.adjustPrice(0.92 * s.target.sellPrice)
  }

  /** Both legs take the market price of the second leg's symbol; 0 when it is not known. */
  function Repriced(s: SellSide, market: real): SellSide
  {
    if |s.legs| != 2 || market == 0.0 then s else
      var first := s.legs[0];
      var second := s.legs[1];
      var adjusted := second.symbol.adjustPrice(market);
      var price := first.symbol.adjustPrice(Ratio(s.target.sellPrice, adjusted));
      var stable := s.target.round8(Cost(price, first.symbol.adjustQuantity(s.target.quantity)));
      s.(legs := [first.(order := first.order.(price := price, quantityStable := stable), sellPrice := price),
                  second.(order := second.order.(price := adjusted, quantity := second.symbol.adjustQuantity(stable)),
                          sellPrice := market)])
  }

  /** What of the bought quantity is still to sell. */
  function LeftToSell(bought: real, s: SellSide): real
  {
    var sold := if |s.legs| == 1 then s.legs[0].order.realized
                else if |s.legs| == 2 then s.legs[1].order.realized
                else 0.0;
    if bought - sold > 0.0 then bought - sold else 0.0
  }

  /** A sell order set up with quantity 0 before the buy filled takes what was bought. */
  function Sized(leg: Leg, buyOrder: Option<Order>, s: SellSide): Leg
  {
    if leg.order.quantity == 0.0 && buyOrder.Some? && buyOrder.value.realized > 0.0 then
      var left := LeftToSell(buyOrder.value.realized, s);
      if left > 0.0 then
        leg.(order := leg.order.(quantity := left, quantityStable := Cost(leg.order.price, left)), quantity := left)
      else leg
    else leg
  }

  function OpenedLeg(leg: Leg, reply: string): Leg
  {
    if leg.order.status == StFilled then leg else leg.(order := leg.order.(id := reply, status := StNew))
  }

  function SubmitSell(h: Hp, reply: string): Hp
  {
    SetSell(h, OpenedLeg(Current(h.sell), reply))
      .(open := if SellOrder(h).status == StFilled then h.open else h.open.(sells := h.open.sells + {reply}))
  }

  function SendSell(h: Hp, reply: string, feed: real): Hp
  {
    var s := if |h.sell.legs| > 1 then Repriced(h.sell, feed) else h.sell;
    var h1 := h.(sell := WithCurrent(s, Sized(Current(s), h.buy.order, s)));
    var h2 := SubmitSell(h1, reply).(state := Selling);
    if SellOrder(h2).status == StFilled then SetSellState(h2, Sold) else h2
  }

  function ResendSell(h: Hp, reply: string): Hp
  {
    SetSellState(SubmitSell(h, reply).(state := Selling), PartiallySold)
  }

  /** An order that is cancelled when its position is. */
  predicate Live(o: Order)
  {
    o.id != "" && (o.status == StNew || o.status == StPartial)
  }

  function CancelledLeg(leg: Leg): Leg
  {
    if Live(leg.order) then leg.(order := leg.order.(status := StCanceled)) else leg
  }

  function CancelSell(h: Hp): Hp
  {
    SetSell(h, CancelledLeg(Current(h.sell)))
      .(open := if Live(SellOrder(h)) then h.open.(sells := h.open.sells - {SellOrder(h).id}) else h.open)
  }

  predicate BuyIsFilled(b: BuySide)
  {
    b.order.Some? && b.order.value.status == StFilled
  }

  function CancelUnfilledSell(h: Hp): Hp
  {
    CancelSell(h).(state := if BuyIsFilled(h.buy) then Bought else PartiallyBought)
  }

  function CancelPartSold(h: Hp): Hp
  {
    SetSellState(CancelSell(h), PartiallySold)
  }

  /** The sell side after its current leg has been sold: with two legs, the second takes
      over from the first, and after the second the whole position counts as sold. */
  function CloseSell(h: Hp, reply: string, feed: real): Hp
  {
    var h1 := SetSellState(h, Sold);
    if |h.sell.legs| == 2 && h.sell.cursor == OnLeg(1) then
      var order := h1.sell.off.order.(status := StFilled);
      h1.(sell := h1.sell.(cursor := OffLegs, off := h1.sell.off.(order := order, side := Sold, direct := true)))
    else if |h.sell.legs| == 2 && h.sell.cursor == OnLeg(0) then
      var h2 := h1.(sell := h1.sell.(cursor := OnLeg(1)), buy := h1.buy.(order := None));
      SendSell(SetSellState(h2, Selling), reply, feed)
    else h1
  }

  // ----- The buy side -----

  /** The part of the order's stable amount that is not yet spent. */
  function OrderLeft(o: Order): real
  {
    o.quantityStable - o.quantityStable * Ratio(o.realized, o.quantity)
  }

  function RemainingBuy(b: BuySide): real
  {
    if b.order.None? then 0.0 else OrderLeft(b.order.value)
  }

  function Above(price: real, percent: real): real
  {
    price * (1.0 + percent / 100.0)
  }

  /** The price so many percent above an order's price: one trigger for sending it, two for
      cancelling it. */
  function Band(c: BuyConfig, price: real, percent: real): real
  {
    c.symbol.adjustPrice(Above(price, percent))
  }

  function BuySendPrice(b: BuySide): real
  {
    if b.order.None? then 0.0 else Band(b.config, b.order.value.price, b.config.trigger)
  }

  function BuyCancelPrice(b: BuySide): real
  {
    if b.order.None? || b.order.value.status == StFilled then 0.0
    else Band(b.config, b.order.value.price, 2.0 * b.config.trigger)
  }

  function Prepared(c: BuyConfig): Order
  {
    Order("", c.symbol.adjustPrice(c.buyPrice), c.symbol.adjustQuantity(Ratio(c.budget, c.buyPrice)), c.budget, 0.0,
          StNew)
  }

  /** The cancel price is fixed when the order is sent. */
  function OpenedBuy(b: BuySide, reply: string): BuySide
    requires b.order.Some?
  {
    var o := b.order.value;
    b.(cancelPrice := BuyCancelPrice(b),
       order := Some(if o.status == StFilled then o else o.(id := reply, status := StNew)))
  }

  /** Send the prepared order; without one the source raises. */
  function SubmitBuy(h: Hp, reply: string): Hp
  {
    if h.buy.order.None? then Halt(h) else
      h.(buy := OpenedBuy(h.buy, reply),
         open := if BuyIsFilled(h.buy) then h.open else h.open.(buys := h.open.buys + {reply}))
  }

  function SendBuy(h: Hp, reply: string): Hp
  {
    var h1 := h.(balance := h.balance - RemainingBuy(h.buy));
    if h.buy.config.buyPrice <= 0.0 then Halt(h1) else
      SetBuyState(SubmitBuy(h1.(buy := h1.buy.(order := Some(Prepared(h.buy.config)))), reply).(state := Buying), New)
  }

  function ResendBuy(h: Hp, reply: string): Hp
  {
    var h1 := SubmitBuy(h.(balance := h.balance - RemainingBuy(h.buy)), reply);
    if !h1.running then h1 else SetBuyState(h1.(state := Buying), PartiallyBought)
  }

  /** The order is cancelled if it is live; then the side's state is read off it. */
  function CancelledBuy(b: BuySide): BuySide
    requires b.order.Some?
  {
    var o := if Live(b.order.value) then b.order.value.(status := StCanceled) else b.order.value;
    var side := if o.status == StCanceled then (if o.realized > 0.0 then PartiallyBought else New)
                else if o.status == StFilled then Bought
                else if o.status == StPartial then PartiallyBought
                else b.side;
    b.(order := Some(o), side := side)
  }

  function CancelBuy(h: Hp): Hp
  {
    if h.buy.order.None? then Halt(h) else
      var o := h.buy.order.value;
      h.(buy := CancelledBuy(h.buy), open := if Live(o) then h.open.(buys := h.open.buys - {o.id}) else h.open)
  }

  function CancelUnfilledBuy(h: Hp): Hp
  {
    var h1 := CancelBuy(h.(balance := h.balance + RemainingBuy(h.buy)));
    if !h1.running then h1 else SetBuyState(h1, New)
  }

  function CancelPartBought(h: Hp): Hp
  {
    var h1 := SetBuyState(h, PartiallyBought);
    CancelBuy(h1.(balance := h1.balance + RemainingBuy(h1.buy)))
  }

  /** Without a buy order the event for the portfolio has no cost to report: the source raises. */
  function CloseBuy(h: Hp): Hp
  {
    var h1 := SetBuyState(h, Bought);
    if h.buy.order.None? then Halt(h1) else h1
  }

  // ----- Guards of the transitions -----

  predicate CanSendBuy(h: Hp, price: real)
  {
    h.buy.side == New && price <= BuySendPrice(h.buy) && h.balance >= h.buy.config.budget &&
    h.buy.order.Some? && h.buy.order.value.status != StFilled
  }

  predicate CanCancelUnfilledBuy(h: Hp, price: real)
  {
    h.buy.side == New && SellState(h) == New && price >= h.buy.cancelPrice && h.buy.order.Some? &&
    (h.buy.order.value.status == StNew || h.buy.order.value.status == StPartial)
  }

  predicate CanCancelBuy(h: Hp, buyState: State, sellState: State, price: real)
  {
    h.buy.side == buyState && SellState(h) == sellState && price >= h.buy.cancelPrice
  }

  predicate CanResendBuy(h: Hp, sellState: State, price: real)
  {
    h.buy.side == PartiallyBought && SellState(h) == sellState && price <= BuySendPrice(h.buy)
  }

  predicate CanSellPartBought(h: Hp, sellState: State, symbol: string, price: real)
  {
    h.buy.side == PartiallyBought && SellState(h) == sellState && price >= SellSendPrice(h.sell) &&
    symbol == Current(h.sell).symbol.name
  }

  predicate CanSendSell(h: Hp, symbol: string, price: real)
  {
    SellState(h) == New && Current(h.sell).sellPrice > 0.0 && price >= SellSendPrice(h.sell) &&
    symbol == h.sell.target.symbol.name
  }

  predicate SellPriceGone(h: Hp, symbol: string, price: real)
  {
    price <= SellCancelPrice(h.sell) && symbol == Current(h.sell).symbol.name
  }

  predicate CanResendPartSold(h: Hp, symbol: string, price: real)
  {
    SellState(h) == PartiallySold && h.buy.side == Bought && price >= SellSendPrice(h.sell) &&
    symbol == Current(h.sell).symbol.name
  }

  predicate IsBuyOrder(h: Hp, id: string)
  {
    h.buy.order.Some? && h.buy.order.value.id == id
  }

  // ----- The transition table: the first guard that holds decides -----

  function OnTicker(h: Hp, symbol: string, price: real, reply: string, feed: real): Hp
  {
    match h.state
    case New =>
      if CanSendBuy(h, price) then SendBuy(h.(state := Buying), reply) else h
    case Buying =>
      if CanCancelUnfilledBuy(h, price) then CancelUnfilledBuy(h.(state := New))
      else if CanCancelBuy(h, PartiallyBought, New, price) then CancelPartBought(h.(state := PartiallyBought))
      else if CanCancelBuy(h, PartiallyBought, PartiallySold, price)
      then CancelPartBought(h.(state := PartSoldPartBought))
      else if CanCancelBuy(h, Sold, PartiallyBought, price) then CancelPartBought(h.(state := SoldPartBought))
      else h
    case PartiallyBought =>
      if CanResendBuy(h, New, price) && h.balance >= RemainingBuy(h.buy) then ResendBuy(h.(state := Buying), reply)
      else if CanSellPartBought(h, New, symbol, price) then SendSell(h.(state := Selling), reply, feed)
      else h
    case Bought =>
      if CanSendSell(h, symbol, price) then SendSell(h, reply, feed) else h
    case Selling =>
      if h.buy.side == PartiallyBought && SellState(h) == New && SellPriceGone(h, symbol, price) &&
        SellOrder(h).status == StNew
      then CancelUnfilledSell(h)
      else if h.buy.side == Bought && SellState(h) == New && SellPriceGone(h, symbol, price)
      then CancelUnfilledSell(h)
      else if SellPriceGone(h, symbol, price) && SellOrder(h).status != StNew && h.buy.side == Bought
      then CancelPartSold(h.(state := PartiallySold))
      else if h.buy.side == PartiallyBought && SellState(h) == PartiallySold && SellPriceGone(h, symbol, price)
      then CancelPartSold(h.(state := PartSoldPartBought))
      else h
    case PartiallySold =>
      if CanResendPartSold(h, symbol, price) then ResendSell(h.(state := Selling), reply) else Halt(h)
    case PartSoldPartBought =>
      if CanSellPartBought(h, PartiallySold, symbol, price) then ResendSell(h, reply)
      else if CanResendBuy(h, PartiallySold, price) then ResendBuy(h.(state := Buying), reply)
      else h
    case SoldPartBought =>
      if CanResendBuy(h, Sold, price) then ResendBuy(h.(state := Buying), reply) else h
    case Sold => h
    case Closed => h
    case _ => Halt(h)
  }

  function OnSignal(h: Hp, allFilled: bool, reply: string, feed: real): Hp
  {
    match h.state
    case Buying =>
      if SellState(h) == New && BuyIsFilled(h.buy) && allFilled then CloseBuy(h.(state := Bought))
      else if h.buy.side == PartiallyBought && SellState(h) == PartiallySold && BuyIsFilled(h.buy) && allFilled
      then CloseBuy(h.(state := PartiallySold))
      else h
    case Bought => CloseBuy(h)
    case Selling =>
      if h.buy.side == PartiallyBought && SellOrder(h).status == StFilled && allFilled
      then SetSellState(h.(state := SoldPartBought), Sold)
      else if h.buy.side == Bought && SellOrder(h).status == StFilled && allFilled
      then CloseSell(h.(state := Sold), reply, feed)
      else h
    case _ => Halt(h)
  }

  function FilledBuy(b: BuySide, r: Event): BuySide
    requires r.Report? && b.order.Some?
  {
    b.(side := PartiallyBought,
       order := Some(b.order.value.(status := StFilled, price := r.lastPrice, realized := r.cumulative)))
  }

  function PartFilledBuy(b: BuySide, r: Event): BuySide
    requires r.Report? && b.order.Some?
  {
    var o := b.order.value;
    var left := o.quantityStable - Cost(r.lastPrice, r.lastQuantity);
    b.(side := PartiallyBought,
       order := Some(o.(status := StPartial, price := r.lastPrice, realized := r.cumulative, quantityStable := left)))
  }

  function BuyFilled(h: Hp, r: Event): Hp
    requires r.Report? && h.buy.order.Some?
  {
    (if SellState(h) == Sold then SetSellState(h, PartiallySold) else h).(buy := FilledBuy(h.buy, r))
  }

  function BuyPartFilled(h: Hp, r: Event): Hp
    requires r.Report? && h.buy.order.Some?
  {
    h.(buy := PartFilledBuy(h.buy, r))
  }

  function FilledLeg(leg: Leg, r: Event): Leg
    requires r.Report?
  {
    leg.(side := Sold, order := leg.order.(status := StFilled, price := r.lastPrice, realized := r.cumulative))
  }

  function SellFilled(h: Hp, r: Event): Hp
    requires r.Report?
  {
    SetSell(h, FilledLeg(Current(h.sell), r))
  }

  function PartFilledLeg(leg: Leg, r: Event): Leg
    requires r.Report?
  {
    leg.(side := PartiallySold,
         order := leg.order.(status := StPartial, price := r.lastPrice, realized := r.cumulative,
                             quantityStable := Cost(r.lastPrice, r.lastQuantity)))
  }

  function SellPartFilled(h: Hp, r: Event): Hp
    requires r.Report?
  {
    SetSell(h, PartFilledLeg(Current(h.sell), r))
  }

  /** Copy a reported status to whichever of the two orders it is about. */
  function Confirm(h: Hp, id: string, status: Status): Hp
  {
    var h1 := if IsBuyOrder(h, id) then h.(buy := h.buy.(order := Some(h.buy.order.value.(status := status)))) else h;
    var leg := Current(h1.sell);
    if leg.order.id == id then SetSell(h1, leg.(order := leg.order.(status := status))) else h1
  }

  function OnReport(h: Hp, r: Event): Hp
    requires r.Report?
  {
    if h.state == Buying && r.limit && r.status == StFilled && IsBuyOrder(h, r.id) then BuyFilled(h, r)
    else if h.state == Buying && r.limit && r.status == StPartial && IsBuyOrder(h, r.id) then BuyPartFilled(h, r)
    else if h.state == Selling && r.limit && r.status == StFilled && SellOrder(h).id == r.id then SellFilled(h, r)
    else if h.state == Selling && r.limit && r.status == StPartial && SellOrder(h).id == r.id then SellPartFilled(h, r)
    else if (r.limit || r.market) && r.status == StNew && r.symbol == h.buy.config.symbol.name
    then Confirm(h, r.id, StNew)
    else if r.limit && r.status == StCanceled && r.symbol == h.buy.config.symbol.name then Confirm(h, r.id, StCanceled)
    else if r.limit && r.status == StExpired then Confirm(h, r.id, StExpired)
    else h
  }

  /** One event taken from the queue, or an order closing on the exchange by itself. */
  function Step(h: Hp, e: Event): Hp
  {
    if e.Closes? then h.(open := Exchange(h.open.buys - {e.id}, h.open.sells - {e.id}))
    else if !h.running then h
    else match e
      case Ticker(symbol, price, reply, feed) => OnTicker(h, symbol, price, reply, feed)
      case Signal(allFilled, reply, feed) => OnSignal(h, allFilled, reply, feed)
      case Report(_, _, _, _, _, _, _, _) => OnReport(h, e)
  }

  function Run(h: Hp, events: seq<Event>): Hp
    decreases events
  {
    if events == [] then h else Run(Step(h, events[0]), events[1..])
  }

  lemma RunSplits(h: Hp, first: seq<Event>, second: seq<Event>)
    ensures Run(h, first + second) == Run(Run(h, first), second)
    decreases first
  {
    if first == [] {
      assert first + second == second;
    } else {
      assert (first + second)[0] == first[0] && (first + second)[1..] == first[1..] + second;
      RunSplits(Step(h, first[0]), first[1..], second);
    }
  }
}
