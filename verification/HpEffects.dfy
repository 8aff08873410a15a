/**
 What single events of the HP machine make of the two sides and their orders: which states of
 the two sides go with each state of the strategy, when and for how much orders are sent, and
 what reports leave behind.
 */
module HpEffects {
  import opened Options
  import opened Money
  import opened HpMachine
  import opened HpRuns

  // ----- The states of the two sides -----

  /** The states of the two sides that go with a state of the strategy. */
  predicate SidesMatch(h: Hp)
  {
    var bought, sold := h.buy.side, SellState(h);
    match h.state
    case New => bought == New && sold == New
    case Buying =>
      (bought == New && sold == New) ||
      (bought == PartiallyBought && (sold == New || sold == PartiallySold || sold == Sold))
    case PartiallyBought => (bought == New || bought == PartiallyBought || bought == Bought) && sold == New
    case Bought => (bought == PartiallyBought || bought == Bought) && sold == New
    case Selling =>
      (bought == PartiallyBought && (sold == New || sold == PartiallySold || sold == Sold)) ||
      (bought == Bought && (sold == New || sold == Selling || sold == PartiallySold || sold == Sold))
    case PartiallySold => bought == Bought && sold == PartiallySold
    case PartSoldPartBought =>
      (bought == New || bought == PartiallyBought || bought == Bought) && sold == PartiallySold
    case SoldPartBought => bought == PartiallyBought && sold == Sold
    case Sold => bought == Bought && sold == Sold
    case _ => false
  }

  /** A strategy at its start, with whatever legs are configured. */
  predicate AtStart(h: Hp)
  {
    h.state == New && h.buy.side == New && SellState(h) == New && WellFormed(h.sell)
  }

  lemma CurrentIsSet(s: SellSide, leg: Leg)
    requires WellFormed(s)
    ensures WellFormed(WithCurrent(s, leg)) && Current(WithCurrent(s, leg)) == leg
  {
  }

  lemma RepricedKeepsSide(s: SellSide, feed: real)
    requires WellFormed(s)
    ensures WellFormed(Repriced(s, feed)) && Current(Repriced(s, feed)).side == Current(s).side
  {
  }

  lemma SizingKeepsSide(leg: Leg, buyOrder: Option<Order>, s: SellSide)
    ensures Sized(leg, buyOrder, s).side == leg.side
  {
  }

  /** A sent sale leaves its side as it was, or SOLD when there was nothing left to fill. */
  lemma SendingSides(h: Hp, reply: string, feed: real)
    requires WellFormed(h.sell)
    ensures var g := SendSell(h, reply, feed);
      g.buy == h.buy && g.state == Selling && g.running == h.running && WellFormed(g.sell) &&
      (SellState(g) == SellState(h) || SellState(g) == Sold)
  {
    hide Repriced, Current, WithCurrent, Sized;
    var s := if |h.sell.legs| > 1 then Repriced(h.sell, feed) else h.sell;
    RepricedKeepsSide(h.sell, feed);
    var leg := Sized(Current(s), h.buy.order, s);
    assert leg.side == Current(s).side by { SizingKeepsSide(Current(s), h.buy.order, s); }
    CurrentIsSet(s, leg);
    var s1 := WithCurrent(s, leg);
    CurrentIsSet(s1, OpenedLeg(leg, reply));
    var s2 := WithCurrent(s1, OpenedLeg(leg, reply));
    CurrentIsSet(s2, OpenedLeg(leg, reply).(side := Sold));
  }

  lemma ResendingSides(h: Hp, reply: string)
    requires WellFormed(h.sell)
    ensures var g := ResendSell(h, reply);
      g.buy == h.buy && g.state == Selling && g.running == h.running && WellFormed(g.sell) &&
      SellState(g) == PartiallySold
  {
    hide Current, WithCurrent;
    CurrentIsSet(h.sell, OpenedLeg(Current(h.sell), reply));
    var s := WithCurrent(h.sell, OpenedLeg(Current(h.sell), reply));
    CurrentIsSet(s, Current(s).(side := PartiallySold));
  }

  lemma CancellingSides(h: Hp)
    requires WellFormed(h.sell)
    ensures var g := CancelSell(h);
      g.buy == h.buy && g.state == h.state && g.running == h.running && WellFormed(g.sell) &&
      SellState(g) == SellState(h)
    ensures var g := CancelPartSold(h);
      g.buy == h.buy && g.state == h.state && g.running == h.running && WellFormed(g.sell) &&
      SellState(g) == PartiallySold
  {
    hide Current, WithCurrent;
    CurrentIsSet(h.sell, CancelledLeg(Current(h.sell)));
    var s := WithCurrent(h.sell, CancelledLeg(Current(h.sell)));
    CurrentIsSet(s, Current(s).(side := PartiallySold));
  }

  lemma TickerKeepsSides(h: Hp, symbol: string, price: real, reply: string, feed: real)
    requires h.running && WellFormed(h.sell) && SidesMatch(h)
    ensures var g := OnTicker(h, symbol, price, reply, feed); WellFormed(g.sell) && SidesMatch(g)
  {
    hide SendSell, ResendSell, CancelSell, CancelPartSold, RemainingBuy, Current, WithCurrent, WellFormed, BuySendPrice,
         SellSendPrice, SellCancelPrice;
    SendingSides(h, reply, feed);
    SendingSides(h.(state := Selling), reply, feed);
    ResendingSides(h, reply);
    ResendingSides(h.(state := Selling), reply);
    CancellingSides(h);
    CancellingSides(h.(state := PartiallySold));
    CancellingSides(h.(state := PartSoldPartBought));
  }

  lemma SettingSides(h: Hp, st: State)
    requires WellFormed(h.sell)
    ensures var g := SetSellState(h, st); WellFormed(g.sell) && g == h.(sell := g.sell) && SellState(g) == st
  {
  }

  /** After the first leg the second takes over, its side SELLING; after the last all is SOLD. */
  lemma ClosingSides(h: Hp, reply: string, feed: real)
    requires WellFormed(h.sell) && h.state == Sold && h.buy.side == Bought
    ensures var g := CloseSell(h, reply, feed);
      WellFormed(g.sell) && g.buy.side == Bought &&
      ((g.state == Sold && SellState(g) == Sold) ||
       (g.state == Selling && (SellState(g) == Selling || SellState(g) == Sold)))
  {
    hide SendSell;
    var h1 := SetSellState(h, Sold);
    SettingSides(h, Sold);
    if |h.sell.legs| == 2 && h.sell.cursor == OnLeg(0) {
      var h2 := h1.(sell := h1.sell.(cursor := OnLeg(1)), buy := h1.buy.(order := None));
      SettingSides(h2, Selling);
      SendingSides(SetSellState(h2, Selling), reply, feed);
    }
  }

  lemma SignalKeepsSides(h: Hp, allFilled: bool, reply: string, feed: real)
    requires h.running && WellFormed(h.sell) && SidesMatch(h)
    ensures var g := OnSignal(h, allFilled, reply, feed); WellFormed(g.sell) && SidesMatch(g)
  {
    hide CloseSell, Current, WithCurrent, WellFormed;
    SettingSides(h.(state := SoldPartBought), Sold);
    if h.state == Selling && h.buy.side == Bought {
      ClosingSides(h.(state := Sold), reply, feed);
    }
  }

  lemma FilledSides(h: Hp, leg: Leg)
    requires WellFormed(h.sell)
    ensures var g := SetSell(h, leg); WellFormed(g.sell) && g == h.(sell := g.sell) && SellState(g) == leg.side
  {
  }

  lemma ConfirmKeepsSides(h: Hp, id: string, status: Status)
    requires WellFormed(h.sell)
    ensures var g := Confirm(h, id, status);
      WellFormed(g.sell) && g.state == h.state && g.buy.side == h.buy.side && SellState(g) == SellState(h)
  {
  }

  lemma ReportKeepsSides(h: Hp, r: Event)
    requires r.Report? && h.running && WellFormed(h.sell) && SidesMatch(h)
    ensures var g := OnReport(h, r); WellFormed(g.sell) && SidesMatch(g)
  {
    hide SetSell, Current, WellFormed, Confirm;
    ConfirmKeepsSides(h, r.id, StNew);
    ConfirmKeepsSides(h, r.id, StCanceled);
    ConfirmKeepsSides(h, r.id, StExpired);
    FilledSides(h, Current(h.sell).(side := PartiallySold));
    FilledSides(h, FilledLeg(Current(h.sell), r));
    FilledSides(h, PartFilledLeg(Current(h.sell), r));
  }

  lemma StepKeepsSides(h: Hp, e: Event)
    requires WellFormed(h.sell) && SidesMatch(h)
    ensures WellFormed(Step(h, e).sell) && SidesMatch(Step(h, e))
  {
    hide OnTicker, OnSignal, OnReport;
    if h.running {
      match e
      case Ticker(symbol, price, reply, feed) => TickerKeepsSides(h, symbol, price, reply, feed);
      case Signal(allFilled, reply, feed) => SignalKeepsSides(h, allFilled, reply, feed);
      case Report(_, _, _, _, _, _, _, _) => ReportKeepsSides(h, e);
      case Closes(_) =>
    }
  }

  /** On every run, whatever the market and the exchange do, the states of the two sides go with the
      state of the strategy. */
  lemma {:induction false} SidesAlwaysMatch(h: Hp, events: seq<Event>)
    requires WellFormed(h.sell) && SidesMatch(h)
    ensures WellFormed(Run(h, events).sell) && SidesMatch(Run(h, events))
    decreases events
  {
    hide WellFormed, SidesMatch, OnTicker, OnSignal, OnReport;
    if events != [] {
      StepKeepsSides(h, events[0]);
      SidesAlwaysMatch(Step(h, events[0]), events[1..]);
    }
  }

  // ----- Sending the buy -----

  /** A band is the rounded price so many percent above the order's. */
  lemma BandIsAbove(c: BuyConfig, price: real, percent: real, raw: real)
    requires raw * 100.0 == price * (100.0 + percent)
    ensures Band(c, price, percent) == c.symbol.adjustPrice(raw)
  {
    assert Above(price, percent) * 100.0 == price * (100.0 + percent);
  }

  predicate AtSellPrice(s: SellSide, price: real)
  {
    price >= s.target.symbol.adjustPrice(if Current(s).direct then 0.96 * s.target.sellPrice else s.target.sellPrice)
  }

  predicate Waits(st: State)
  {
    st == New || st == PartiallyBought || st == PartSoldPartBought || st == SoldPartBought
  }

  /** When a ticker sends the buy order: within its trigger, with the balance for it, and where both
      sides could go on, unless the sale goes first. */
  lemma BuyIsSentIff(h: Hp, symbol: string, price: real, reply: string, feed: real)
    requires h.running && SidesMatch(h) && Waits(h.state)
    ensures var g := Step(h, Ticker(symbol, price, reply, feed));
      g.running && g.state == Buying <==>
        h.buy.order.Some? && price <= Band(h.buy.config, h.buy.order.value.price, h.buy.config.trigger) &&
        match h.state
        case New => h.balance >= h.buy.config.budget && h.buy.order.value.status != StFilled
                    && h.buy.config.buyPrice > 0.0
        case PartiallyBought => h.buy.side == PartiallyBought && h.balance >= OrderLeft(h.buy.order.value)
        case PartSoldPartBought =>
          h.buy.side == PartiallyBought && !(AtSellPrice(h.sell, price) && symbol == Current(h.sell).symbol.name)
        case _ => true
  {
    hide OrderLeft, SendSell, ResendSell, Current, Band;
    SellingLeavesBuy(h, reply, feed);
    SellingLeavesBuy(h.(state := Selling), reply, feed);
  }

  /** What is sent: from NEW a fresh order for the whole budget, otherwise the old one again; the cancel
      price is two triggers above its price. */
  lemma BuyAsSent(h: Hp, symbol: string, price: real, reply: string, feed: real)
    requires h.running && SidesMatch(h) && Waits(h.state)
    requires var g := Step(h, Ticker(symbol, price, reply, feed)); g.running && g.state == Buying
    ensures var g, c := Step(h, Ticker(symbol, price, reply, feed)), h.buy.config;
      h.buy.order.Some? && g.buy.order.Some? && g.buy.config == c && g.sell == h.sell &&
      g.balance == h.balance - OrderLeft(h.buy.order.value) &&
      var o := g.buy.order.value;
      (o.status != StFilled ==>
         o.id == reply && o.status == StNew && reply in g.open.buys &&
         g.buy.cancelPrice == Band(c, o.price, 2.0 * c.trigger)) &&
      if h.state == New then
        o == Order(reply, c.symbol.adjustPrice(c.buyPrice), c.symbol.adjustQuantity(c.budget / c.buyPrice), c.budget,
                   0.0, StNew)
      else
        o == h.buy.order.value.(id := o.id, status := o.status) && (o.status == StFilled <==> BuyIsFilled(h.buy))
  {
    hide OrderLeft, SendSell, ResendSell, Current, Band;
    SellingLeavesBuy(h, reply, feed);
    SellingLeavesBuy(h.(state := Selling), reply, feed);
  }

  // ----- Cancelling -----

  /** Where a ticker that ends BUYING leads: back to NEW with nothing filled, and otherwise by what is
      sold; the order is cancelled and what it had left is free again. */
  lemma BuyAsCancelled(h: Hp, symbol: string, price: real, reply: string, feed: real)
    requires h.running && SidesMatch(h) && h.state == Buying && h.buy.order.Some?
    requires Step(h, Ticker(symbol, price, reply, feed)).state != Buying
    ensures var g, o := Step(h, Ticker(symbol, price, reply, feed)), h.buy.order.value;
      g.running && g.sell == h.sell && g.balance == h.balance + OrderLeft(o) &&
      g.state == (if h.buy.side == New then New
                  else if SellState(h) == New then PartiallyBought else PartSoldPartBought) &&
      g.buy.order == Some(if Live(o) then o.(status := StCanceled) else o) &&
      (g.state != New && Live(o) ==> g.buy.side == if o.realized > 0.0 then PartiallyBought else New)
  {
    hide OrderLeft, Current;
  }

  /** Where a ticker that ends SELLING leads: back to where the untouched sale was sent from, and
      otherwise by what is bought. */
  lemma SaleAsCancelled(h: Hp, symbol: string, price: real, reply: string, feed: real)
    requires h.running && WellFormed(h.sell) && SidesMatch(h) && h.state == Selling
    requires Step(h, Ticker(symbol, price, reply, feed)).state != Selling
    ensures var g, o := Step(h, Ticker(symbol, price, reply, feed)), SellOrder(h);
      g.running && g.buy == h.buy && g.balance == h.balance &&
      g.state == (if SellState(h) == New then (if BuyIsFilled(h.buy) then Bought else PartiallyBought)
                  else if h.buy.side == Bought then PartiallySold else PartSoldPartBought) &&
      SellOrder(g) == (if Live(o) then o.(status := StCanceled) else o) &&
      SellState(g) == if SellState(h) == New then New else PartiallySold
  {
    hide Current, WithCurrent, SellPriceGone;
    CurrentIsSet(h.sell, CancelledLeg(Current(h.sell)));
    var s := WithCurrent(h.sell, CancelledLeg(Current(h.sell)));
    CurrentIsSet(s, Current(s).(side := PartiallySold));
  }

  // ----- Sending the sale -----

  predicate Holds(st: State)
  {
    st == PartiallyBought || st == Bought || st == PartiallySold || st == PartSoldPartBought
  }

  /** Two legs at the market price of the second: that is the second's price, the first takes what is
      left of the target, and the second sells what the first brings, each rounded by its symbol. */
  lemma LegsAfterRepricing(s: SellSide, market: real)
    requires |s.legs| == 2 && market != 0.0 && s.legs[1].symbol.adjustPrice(market) != 0.0
    ensures var first, second := s.legs[0], s.legs[1];
      var t := Repriced(s, market);
      |t.legs| == 2 && t == s.(legs := t.legs) &&
      var o, o' := t.legs[0].order, t.legs[1].order;
      t.legs[0] == first.(order := first.order.(price := o.price, quantityStable := o.quantityStable),
                          sellPrice := o.price) &&
      t.legs[1] == second.(order := second.order.(price := o'.price, quantity := o'.quantity), sellPrice := market) &&
      o'.price == second.symbol.adjustPrice(market) &&
      o.price == first.symbol.adjustPrice(s.target.sellPrice / o'.price) &&
      o.quantityStable == s.target.round8(Cost(o.price, first.symbol.adjustQuantity(s.target.quantity))) &&
      o'.quantity == second.symbol.adjustQuantity(o.quantityStable)
  {
  }

  /** When a ticker sends the sale: at 0.96 of the sell price for a direct leg and at the sell price
      otherwise, and where both sides could go on, unless the buy goes first. */
  lemma SaleIsSentIff(h: Hp, symbol: string, price: real, reply: string, feed: real)
    requires h.running && WellFormed(h.sell) && SidesMatch(h) && Holds(h.state)
    ensures var g := Step(h, Ticker(symbol, price, reply, feed));
      g.running && g.state == Selling <==>
        AtSellPrice(h.sell, price) &&
        match h.state
        case Bought => Current(h.sell).sellPrice > 0.0 && symbol == h.sell.target.symbol.name
        case PartiallyBought =>
          h.buy.side == PartiallyBought && symbol == Current(h.sell).symbol.name &&
          !(price <= BuySendPrice(h.buy) && h.balance >= RemainingBuy(h.buy))
        case PartSoldPartBought => h.buy.side == PartiallyBought && symbol == Current(h.sell).symbol.name
        case _ => symbol == Current(h.sell).symbol.name
  {
    hide RemainingBuy, SendSell, ResendSell, Current, BuySendPrice;
    SellingLeavesBuy(h, reply, feed);
    SellingLeavesBuy(h.(state := Selling), reply, feed);
  }

  /** What the position has sold by the count of its last leg. */
  function SoldSoFar(s: SellSide): real
  {
    if s.legs == [] then 0.0 else s.legs[|s.legs| - 1].order.realized
  }

  predicate SetUpOpen(leg: Leg, bought: Option<Order>, sold: real)
  {
    leg.order.quantity == 0.0 && bought.Some? && bought.value.realized > 0.0 && bought.value.realized > sold
  }

  lemma RepricedKeepsRealized(s: SellSide, feed: real)
    requires WellFormed(s)
    ensures var t := Repriced(s, feed);
      WellFormed(t) && SoldSoFar(t) == SoldSoFar(s) && |t.legs| == |s.legs| &&
      Current(t).order.realized == Current(s).order.realized
  {
  }

  lemma LeftIsUnsold(bought: real, s: SellSide)
    requires WellFormed(s)
    ensures LeftToSell(bought, s) == if bought > SoldSoFar(s) then bought - SoldSoFar(s) else 0.0
  {
  }

  /** The leg a sale is sent with. */
  lemma SizedLeg(leg: Leg, bought: Option<Order>, s: SellSide)
    requires WellFormed(s)
    ensures var o := Sized(leg, bought, s).order;
      if SetUpOpen(leg, bought, SoldSoFar(s)) then
        o == leg.order.(quantity := o.quantity, quantityStable := o.quantityStable) &&
        o.quantity + SoldSoFar(s) == bought.value.realized && o.quantityStable == o.quantity * o.price &&
        Sized(leg, bought, s).quantity == o.quantity
      else
        Sized(leg, bought, s) == leg
  {
    if bought.Some? {
      LeftIsUnsold(bought.value.realized, s);
    }
    hide LeftToSell, SoldSoFar;
  }

  lemma OneLegKeepsPrice(s: SellSide, feed: real)
    ensures |s.legs| <= 1 ==> Repriced(s, feed) == s
  {
  }

  lemma SendsSizedLeg(h: Hp, reply: string, feed: real)
    requires WellFormed(h.sell)
    ensures var g, s := SendSell(h, reply, feed), Repriced(h.sell, feed);
      var leg := Sized(Current(s), h.buy.order, s);
      Current(g.sell).quantity == leg.quantity &&
      if leg.order.status == StFilled then SellOrder(g) == leg.order && SellState(g) == Sold
      else
        SellOrder(g) == leg.order.(id := reply, status := StNew) && SellState(g) == leg.side && reply in g.open.sells
  {
    hide Repriced, Current, WithCurrent, Sized;
    var s := Repriced(h.sell, feed);
    assert s == if |h.sell.legs| > 1 then Repriced(h.sell, feed) else h.sell by { OneLegKeepsPrice(h.sell, feed); }
    RepricedKeepsSide(h.sell, feed);
    var leg := Sized(Current(s), h.buy.order, s);
    CurrentIsSet(s, leg);
    var s1 := WithCurrent(s, leg);
    CurrentIsSet(s1, OpenedLeg(leg, reply));
    var s2 := WithCurrent(s1, OpenedLeg(leg, reply));
    CurrentIsSet(s2, OpenedLeg(leg, reply).(side := Sold));
  }

  lemma ResendIsBuying(h: Hp, reply: string)
    requires h.state == Buying
    ensures ResendBuy(h, reply).state == Buying
  {
  }

  /** A sale set up without a quantity is sent for what was bought and is not sold yet; one with a
      quantity of its own keeps it. */
  lemma SaleAsSent(h: Hp, symbol: string, price: real, reply: string, feed: real)
    requires h.running && WellFormed(h.sell) && (h.state == Bought || h.state == PartiallyBought)
    requires Step(h, Ticker(symbol, price, reply, feed)).state == Selling
    ensures var g, leg, bought := Step(h, Ticker(symbol, price, reply, feed)), Current(Repriced(h.sell, feed)),
                                  h.buy.order;
      var sold, o := SoldSoFar(h.sell), SellOrder(g);
      if SetUpOpen(leg, bought, sold) then
        o.quantity + sold == bought.value.realized && o.quantityStable == o.quantity * o.price &&
        Current(g.sell).quantity == o.quantity
      else
        o.quantity == leg.order.quantity && o.quantityStable == leg.order.quantityStable
    ensures var g, leg := Step(h, Ticker(symbol, price, reply, feed)), Current(Repriced(h.sell, feed));
      var o := SellOrder(g);
      o.price == leg.order.price && o.realized == leg.order.realized &&
      if leg.order.status == StFilled then SellState(g) == Sold
      else o.id == reply && o.status == StNew && reply in g.open.sells && SellState(g) == SellState(h)
  {
    hide Repriced, Sized, SoldSoFar, Current, SendSell, ResendSell, ResendBuy, RemainingBuy;
    RepricedKeepsRealized(h.sell, feed);
    var s := Repriced(h.sell, feed);
    RepricedKeepsSide(h.sell, feed);
    SizingKeepsSide(Current(s), h.buy.order, s);
    SizedLeg(Current(s), h.buy.order, s);
    SendsSizedLeg(h, reply, feed);
    SendsSizedLeg(h.(state := Selling), reply, feed);
    ResendIsBuying(h.(state := Buying), reply);
  }

  /** A sale that is partly sold is sent again as it was. */
  lemma SaleAsResent(h: Hp, symbol: string, price: real, reply: string, feed: real)
    requires h.running && WellFormed(h.sell) && (h.state == PartiallySold || h.state == PartSoldPartBought)
    requires Step(h, Ticker(symbol, price, reply, feed)).state == Selling
    ensures var g, o := Step(h, Ticker(symbol, price, reply, feed)), SellOrder(h);
      g.buy == h.buy && g.balance == h.balance && SellState(g) == PartiallySold &&
      if o.status == StFilled then SellOrder(g) == o && g.open == h.open
      else SellOrder(g) == o.(id := reply, status := StNew) && g.open == h.open.(sells := h.open.sells + {reply})
  {
    hide Current, WithCurrent, RemainingBuy, BuySendPrice, SellSendPrice;
    CurrentIsSet(h.sell, OpenedLeg(Current(h.sell), reply));
    var s := WithCurrent(h.sell, OpenedLeg(Current(h.sell), reply));
    CurrentIsSet(s, Current(s).(side := PartiallySold));
    ResendIsBuying(h.(state := Buying), reply);
  }

  // ----- Signals -----

  /** The signal after the first leg's fill sends the second leg: at the market price and for what the
      first leg brings by it, or as it was set up when no market price is known. */
  lemma SecondLegAsSent(h: Hp, reply: string, feed: real)
    requires h.running && h.state == Selling && h.buy.side == Bought && SellOrder(h).status == StFilled
    requires |h.sell.legs| == 2 && h.sell.cursor == OnLeg(0)
    ensures var g, leg := Step(h, Signal(true, reply, feed)), Repriced(h.sell, feed).legs[1];
      |g.sell.legs| == 2 && g.buy.order == None && g.balance == h.balance &&
      g.sell.cursor == OnLeg(1) && g.sell.legs[0].side == Sold &&
      g.sell.legs[1].order == if leg.order.status == StFilled then leg.order
                              else leg.order.(id := reply, status := StNew)
  {
  }

  /** The signal after the second leg's fill: both legs are done, and the original position is the
      current one again, filled and SOLD. */
  lemma LastLegFinishes(h: Hp, reply: string, feed: real)
    requires h.running && h.state == Selling && h.buy.side == Bought && SellOrder(h).status == StFilled
    requires |h.sell.legs| == 2 && h.sell.cursor == OnLeg(1)
    ensures var g := Step(h, Signal(true, reply, feed));
      g.running && g.state == Sold && g.sell.cursor == OffLegs && g.open == h.open && g.balance == h.balance &&
      g.sell.legs == [h.sell.legs[0], h.sell.legs[1].(side := Sold)] &&
      Current(g.sell) == h.sell.off.(side := Sold, direct := true, order := h.sell.off.order.(status := StFilled))
  {
  }

  /** Any signal while BOUGHT settles the buy side, and raises when the buy order is gone. */
  lemma SignalAtBought(h: Hp, allFilled: bool, reply: string, feed: real)
    requires h.running && h.state == Bought
    ensures Step(h, Signal(allFilled, reply, feed)) ==
      h.(buy := h.buy.(side := Bought), running := h.buy.order.Some?)
  {
  }

  /** A trigger without a transition from the state raises. */
  lemma NoTransitionRaises(h: Hp, e: Event)
    requires h.running
    requires (e.Signal? && h.state != Buying && h.state != Bought && h.state != Selling) ||
             (e.Ticker? && (h.state == ReadyToSell || h.state == WaitingChild))
    ensures Step(h, e) == h.(running := false)
  {
  }

  // ----- Reports -----

  /** What the reported executions cost. */
  function Spent(reports: seq<Event>): real
    requires forall r <- reports :: r.Report?
  {
    if reports == [] then 0.0
    else Spent(reports[..|reports| - 1]) + Cost(reports[|reports| - 1].lastPrice, reports[|reports| - 1].lastQuantity)
  }

  predicate PartialFillsOf(reports: seq<Event>, id: string)
  {
    forall r <- reports :: r.Report? && r.limit && r.status == StPartial && r.id == id
  }

  lemma RunLast(h: Hp, events: seq<Event>, e: Event)
    ensures Run(h, events + [e]) == Step(Run(h, events), e)
  {
    RunSplits(h, events, [e]);
    RunsOne(Run(h, events), e);
  }

  lemma PartialFill(h: Hp, r: Event)
    requires h.running && h.state == Buying && h.buy.order.Some?
    requires r.Report? && r.limit && r.status == StPartial && r.id == h.buy.order.value.id
    ensures var o := h.buy.order.value;
      Step(h, r) ==
        h.(buy := h.buy.(side := PartiallyBought,
                         order := Some(o.(status := StPartial, price := r.lastPrice, realized := r.cumulative,
                                          quantityStable := o.quantityStable - Cost(r.lastPrice, r.lastQuantity)))))
  {
  }

  lemma SpentMore(before: seq<Event>, last: Event)
    requires last.Report? && forall r <- before :: r.Report?
    ensures Spent([]) == 0.0 && Spent(before + [last]) == Spent(before) + Cost(last.lastPrice, last.lastQuantity)
  {
    assert (before + [last])[..|before|] == before;
  }

  lemma NoEvents(h: Hp)
    ensures Run(h, []) == h
  {
  }

  /** Over any partial fills of the buy order its stable amount falls by what they cost, and price and
      realized quantity are the last reported ones. */
  lemma {:induction false} PartialFillsSpend(h: Hp, reports: seq<Event>)
    requires h.running && h.state == Buying && h.buy.order.Some? && reports != []
    requires PartialFillsOf(reports, h.buy.order.value.id)
    ensures var o, last := h.buy.order.value, reports[|reports| - 1];
      Run(h, reports) ==
        h.(buy := h.buy.(side := PartiallyBought,
                         order := Some(o.(status := StPartial, price := last.lastPrice, realized := last.cumulative,
                                          quantityStable := o.quantityStable - Spent(reports)))))
    decreases reports
  {
    hide Run, Step, Spent, Cost;
    var n := |reports| - 1;
    var before, last := reports[..n], reports[n];
    assert reports == before + [last] && last in reports;
    RunLast(h, before, last);
    SpentMore(before, last);
    if before == [] {
      NoEvents(h);
      PartialFill(h, last);
    } else {
      PartialFillsSpend(h, before);
      PartialFill(Run(h, before), last);
    }
  }

  /** What an order has left is the share of its stable amount that is not realized. */
  lemma LeftIsShare(o: Order)
    requires o.quantity != 0.0
    ensures OrderLeft(o) * o.quantity == o.quantityStable * (o.quantity - o.realized)
  {
    RatioTimes(o.realized, o.quantity);
    var ratio := Ratio(o.realized, o.quantity);
    assert OrderLeft(o) * o.quantity == o.quantityStable * o.quantity - o.quantityStable * (ratio * o.quantity);
  }

  lemma ZeroProduct(x: real, y: real)
    ensures x * y == 0.0 <==> x == 0.0 || y == 0.0
  {
  }

  lemma LeftIsWholeIff(o: Order)
    requires o.quantity != 0.0
    ensures OrderLeft(o) == o.quantityStable <==> o.realized == 0.0 || o.quantityStable == 0.0
  {
    hide OrderLeft;
    LeftIsShare(o);
    var gap := OrderLeft(o) - o.quantityStable;
    assert gap * o.quantity == -(o.quantityStable * o.realized);
    ZeroProduct(gap, o.quantity);
    ZeroProduct(o.quantityStable, o.realized);
  }

  lemma CancelsPart(h: Hp, cancel: Event)
    requires h.running && h.state == Buying && h.buy.order.Some? && h.buy.side == PartiallyBought
    requires SellState(h) == New || SellState(h) == PartiallySold
    requires cancel.Ticker? && cancel.price >= h.buy.cancelPrice
    ensures var g := Step(h, cancel);
      g.state != Buying && g.balance == h.balance + OrderLeft(h.buy.order.value)
  {
    hide OrderLeft;
  }

  lemma AfterParts(h: Hp, reports: seq<Event>) returns (g: Hp)
    requires h.running && h.state == Buying && h.buy.order.Some? && reports != []
    requires PartialFillsOf(reports, h.buy.order.value.id)
    ensures g == Run(h, reports) && g.running && g.state == Buying && g.buy.side == PartiallyBought && g.sell == h.sell
    ensures SellState(g) == SellState(h) && g.balance == h.balance && g.buy.cancelPrice == h.buy.cancelPrice
    ensures g.buy.order.Some? && g.buy.order.value.quantity == h.buy.order.value.quantity
    ensures g.buy.order.value.quantityStable == h.buy.order.value.quantityStable - Spent(reports)
    ensures (forall r <- reports :: r.Report?) && g.buy.order.value.realized == reports[|reports| - 1].cumulative
  {
    g := Run(h, reports);
    hide Run, Spent;
    PartialFillsSpend(h, reports);
  }

  /** The stable amount has fallen by what the parts cost, and the share is then taken of the rest: a
      cancel gives back what is not spent exactly when nothing is realized or nothing is left. */
  lemma CancelReturnsUnspentIff(h: Hp, reports: seq<Event>, cancel: Event)
    requires h.running && h.state == Buying && h.buy.order.Some? && reports != []
    requires PartialFillsOf(reports, h.buy.order.value.id) && h.buy.order.value.quantity != 0.0
    requires SellState(h) == New || SellState(h) == PartiallySold
    requires cancel.Ticker? && cancel.price >= h.buy.cancelPrice
    ensures var o, g := h.buy.order.value, Run(h, reports + [cancel]);
      var unspent := o.quantityStable - Spent(reports);
      g.state != Buying &&
      (g.balance - h.balance == unspent <==> reports[|reports| - 1].cumulative == 0.0 || unspent == 0.0)
  {
    hide *;
    var h1 := AfterParts(h, reports);
    RunLast(h, reports, cancel);
    CancelsPart(h1, cancel);
    LeftIsWholeIff(h1.buy.order.value);
  }

  /** An execution of the sale is entered with its price and the quantity sold so far; a part also
      leaves what its last execution brought. */
  lemma SaleExecution(h: Hp, r: Event)
    requires h.running && h.state == Selling && WellFormed(h.sell) && r.Report? && r.limit && SellOrder(h).id == r.id
    requires r.status == StPartial || r.status == StFilled
    ensures var g, o := Step(h, r), SellOrder(h).(status := r.status, price := r.lastPrice, realized := r.cumulative);
      g == h.(sell := g.sell) && g.sell == h.sell.(legs := g.sell.legs, off := g.sell.off) &&
      SellState(g) == (if r.status == StFilled then Sold else PartiallySold) &&
      SellOrder(g) == if r.status == StFilled then o
                      else o.(quantityStable := Cost(r.lastPrice, r.lastQuantity))
  {
  }

  /** The reports that only tell a status: a new or cancelled order of the buy's symbol, an expired one of
      any. */
  predicate TellsStatus(c: BuyConfig, r: Event)
  {
    r.Report? &&
    ((r.status == StNew && (r.limit || r.market) && r.symbol == c.symbol.name) ||
     (r.status == StCanceled && r.limit && r.symbol == c.symbol.name) ||
     (r.status == StExpired && r.limit))
  }

  /** The status is entered in each current order with the id, and nothing else changes. */
  lemma StatusIsEntered(h: Hp, r: Event)
    requires h.running && WellFormed(h.sell) && TellsStatus(h.buy.config, r)
    ensures var g := Step(h, r);
      g == h.(buy := h.buy.(order := g.buy.order), sell := g.sell) &&
      g.sell == h.sell.(legs := g.sell.legs, off := g.sell.off) &&
      g.buy.order == (if IsBuyOrder(h, r.id) then Some(h.buy.order.value.(status := r.status)) else h.buy.order) &&
      Current(g.sell) == if SellOrder(h).id == r.id then Current(h.sell).(order := SellOrder(h).(status := r.status))
                         else Current(h.sell)
  {
  }

  /** A report about neither of the current orders changes nothing. */
  lemma OtherReports(h: Hp, r: Event)
    requires r.Report? && !IsBuyOrder(h, r.id) && SellOrder(h).id != r.id
    ensures Step(h, r) == h
  {
  }

  /** One leg without a quantity of its own, of which nothing is sold. */
  predicate OnlyLeg(s: SellSide)
  {
    |s.legs| == 1 && s.cursor == OnLeg(0) && s.legs[0].order.quantity == 0.0 && s.legs[0].order.realized == 0.0
  }

  /** A part of the buy is filled, a ticker cancels the rest, and another one reaches the sell price: a
      sale set up without a quantity is sent for exactly the part. */
  lemma PartIsSold(h: Hp, r: Event, cancel: Event, sell: Event)
    requires h.running && h.state == Buying && SellState(h) == New && OnlyLeg(h.sell)
    requires r.Report? && r.limit && r.status == StPartial && IsBuyOrder(h, r.id) && r.cumulative > 0.0
    requires cancel.Ticker? && cancel.price >= h.buy.cancelPrice
    requires sell.Ticker? && Step(Step(Step(h, r), cancel), sell).state == Selling
    ensures SellOrder(Step(Step(Step(h, r), cancel), sell)).quantity == r.cumulative
  {
    hide SendSell, ResendSell, RemainingBuy, BuySendPrice, SellSendPrice;
    var h1 := Step(h, r);
    var h2 := Step(h1, cancel);
    assert h2.sell == h.sell && h2.state == PartiallyBought && h2.running;
    assert h2.buy.order.Some? && h2.buy.order.value.realized == r.cumulative;
    hide Step, Repriced;
    OneLegKeepsPrice(h2.sell, sell.feed);
    SaleAsSent(h2, sell.symbol, sell.price, sell.reply, sell.feed);
  }

  /** And after a fill of the whole and its signal, for all of it. */
  lemma WholeIsSold(h: Hp, r: Event, signal: Event, sell: Event)
    requires h.running && h.state == Buying && SellState(h) == New && OnlyLeg(h.sell)
    requires r.Report? && r.limit && r.status == StFilled && IsBuyOrder(h, r.id) && r.cumulative > 0.0
    requires signal.Signal? && signal.allFilled
    requires sell.Ticker? && Step(Step(Step(h, r), signal), sell).state == Selling
    ensures SellOrder(Step(Step(Step(h, r), signal), sell)).quantity == r.cumulative
  {
    hide SendSell, ResendSell, RemainingBuy, BuySendPrice, SellSendPrice;
    var h1 := Step(h, r);
    var h2 := Step(h1, signal);
    assert h2.sell == h.sell && h2.state == Bought && h2.running;
    assert h2.buy.order.Some? && h2.buy.order.value.realized == r.cumulative;
    hide Step, Repriced;
    OneLegKeepsPrice(h2.sell, sell.feed);
    SaleAsSent(h2, sell.symbol, sell.price, sell.reply, sell.feed);
  }
}
