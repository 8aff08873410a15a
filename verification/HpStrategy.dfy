/**
 The HP strategy as the objects it is: a buy position, a sell position over one or two
 legs, the exchange client they share, and the strategy that runs the transition table.
 Every method is proved to do what the step functions of `HpMachine` say.
 */
module HpStrategies {
  import opened Options
  import opened Money
  import opened HpMachine

  /** The exchange as far as it matters here: which of the strategy's orders are open. */
  class KrakenClient {
    ghost var open: Exchange

    constructor ()
      ensures open == Exchange({}, {})
    {
      open := Exchange({}, {});
    }

    method CreateOrder(buy: bool, reply: string) returns (id: string)
      modifies this
      ensures id == reply
      ensures open ==
        if buy then old(open).(buys := old(open).buys + {reply})
        else old(open).(sells := old(open).sells + {reply})
    {
      open := if buy then open.(buys := open.buys + {reply}) else open.(sells := open.sells + {reply});
      id := reply;
    }

    method CancelOrder(buy: bool, id: string)
      modifies this
      ensures open ==
        if buy then old(open).(buys := old(open).buys - {id})
        else old(open).(sells := old(open).sells - {id})
    {
      open := if buy then open.(buys := open.buys - {id}) else open.(sells := open.sells - {id});
    }

    /** An order filled, expired or cancelled at the exchange. */
    ghost method Closes(id: string)
      modifies this
      ensures open == Exchange(old(open).buys - {id}, old(open).sells - {id})
    {
      open := Exchange(open.buys - {id}, open.sells - {id});
    }
  }

  class HPPositionBuy {
    const client: KrakenClient
    const config: BuyConfig
    var side: State
    var order: Option<Order>
    var cancelPrice: real

    constructor (client: KrakenClient, config: BuyConfig, side: State)
      ensures this.client == client
      ensures View() == BuySide(config, side, None, 0.0)
    {
      this.client, this.config, this.side := client, config, side;
      order, cancelPrice := None, 0.0;
    }

    function View(): BuySide
      reads this
    {
      BuySide(config, side, order, cancelPrice)
    }

    method PrepareOrder() returns (ok: bool)
      modifies this
      ensures ok == (config.buyPrice > 0.0)
      ensures View() == old(View()).(order := if ok then Some(Prepared(config)) else old(order))
    {
      if config.buyPrice <= 0.0 {
        return false;
      }
      var quantity := config.symbol.adjustQuantity(config.budget / config.buyPrice);
      order := Some(Order("", config.symbol.adjustPrice(config.buyPrice), quantity, config.budget, 0.0, StNew));
      ok := true;
    }

    method OpenPosition(reply: string) returns (ok: bool)
      modifies this, client
      ensures ok == old(order).Some?
      ensures ok ==> View() == OpenedBuy(old(View()), reply)
      ensures client.open == if !ok || BuyIsFilled(old(View())) then old(client.open)
                             else old(client.open).(buys := old(client.open).buys + {reply})
      ensures !ok ==> View() == old(View())
    {
      if order.None? {
        return false;
      }
      cancelPrice := if order.value.status == StFilled then 0.0
        else Band(config, order.value.price, 2.0 * config.trigger);
      if order.value.status != StFilled {
        var id := client.CreateOrder(true, reply);
        order := Some(order.value.(id := id, status := StNew));
      }
      ok := true;
    }

    method CancelPosition() returns (ok: bool)
      modifies this, client
      ensures ok == old(order).Some?
      ensures ok ==> View() == CancelledBuy(old(View()))
      ensures client.open ==
        if ok && Live(old(order).value) then old(client.open).(buys := old(client.open).buys - {old(order).value.id})
        else old(client.open)
      ensures !ok ==> View() == old(View())
    {
      if order.None? {
        return false;
      }
      if order.value.status == StPartial && order.value.id != "" {
        client.CancelOrder(true, order.value.id);
        order := Some(order.value.(status := StCanceled));
      } else if order.value.status == StNew && order.value.id != "" {
        client.CancelOrder(true, order.value.id);
        order := Some(order.value.(status := StCanceled));
      }
      if order.value.status == StCanceled && order.value.realized > 0.0 {
        side := PartiallyBought;
      } else if order.value.status == StCanceled {
        side := New;
      } else if order.value.status == StFilled {
        side := Bought;
      }
      if order.value.status == StPartial {
        side := PartiallyBought;
      }
      ok := true;
    }

    method HandleOrderFilled(r: Event)
      requires r.Report? && r.status == StFilled && order.Some? && order.value.id == r.id
      modifies this
      ensures View() == FilledBuy(old(View()), r)
    {
      side := PartiallyBought;
      order := Some(order.value.(status := r.status, price := r.lastPrice, realized := r.cumulative));
    }

    method HandleOrderPartiallyFilled(r: Event)
      requires r.Report? && r.status == StPartial && order.Some? && order.value.id == r.id
      modifies this
      ensures View() == PartFilledBuy(old(View()), r)
    {
      side := PartiallyBought;
      var left := order.value.quantityStable - Cost(r.lastPrice, r.lastQuantity);
      order := Some(order.value.(status := r.status, price := r.lastPrice, realized := r.cumulative,
                                 quantityStable := left));
    }

    method TriggerSendPrice() returns (price: real)
      ensures price == BuySendPrice(View())
    {
      price := if order.None? then 0.0 else Band(config, order.value.price, config.trigger);
    }

    method RemainingQuantity() returns (left: real)
      ensures left == RemainingBuy(View())
    {
      if order.None? {
        return 0.0;
      }
      var o := order.value;
      left := o.quantityStable - o.quantityStable * Ratio(o.realized, o.quantity);
    }
  }

  /** One leg: what is sold, where, and the order for it. */
  class SellPosition {
    var order: Order
    var side: State
    const symbol: Symbol
    var quantity: real
    var sellPrice: real
    const direct: bool

    constructor (leg: Leg)
      ensures View() == leg
    {
      order, side, symbol, quantity, sellPrice, direct := leg.order, leg.side, leg.symbol, leg.quantity,
        leg.sellPrice, leg.direct;
    }

    function View(): Leg
      reads this
    {
      Leg(order, side, symbol, quantity, sellPrice, direct)
    }
  }

  class HPPositionSell {
    const client: KrakenClient
    const target: Target
    const legs: seq<SellPosition>
    const original: SellPosition
    var current: SellPosition

    /** The legs are different objects, and the position they came from is none of them. */
    predicate Valid()
      reads this
    {
      |legs| <= 2 && original !in legs && (|legs| == 2 ==> legs[0] != legs[1])
    }

    function CurrentIndex(): Cursor
      reads this
    {
      if |legs| >= 1 && current == legs[0] then OnLeg(0)
      else if |legs| >= 2 && current == legs[1] then OnLeg(1)
      else OffLegs
    }

    function LegViews(): seq<Leg>
      requires Valid()
      reads this, legs
    {
      if |legs| == 0 then [] else if |legs| == 1 then [legs[0].View()] else [legs[0].View(), legs[1].View()]
    }

    function View(): SellSide
      requires Valid()
      reads this, legs, original, current
    {
      SellSide(target, LegViews(), CurrentIndex(),
               if CurrentIndex() == OffLegs then current.View() else original.View())
    }

    /** Without legs the current position is `fallback`: an empty one, or the original when restored. */
    constructor (client: KrakenClient, target: Target, legs: seq<SellPosition>, original: SellPosition,
                 fallback: SellPosition)
      requires |legs| <= 2 && original !in legs && (|legs| == 2 ==> legs[0] != legs[1])
      ensures Valid() && this.client == client && this.target == target && this.legs == legs &&
        this.original == original
      ensures current == if legs == [] then fallback else legs[0]
      ensures CurrentIndex() == if legs == [] then OffLegs else OnLeg(0)
    {
      this.client, this.target, this.legs, this.original := client, target, legs, original;
      current := if legs == [] then fallback else legs[0];
    }

    lemma CurrentView()
      requires Valid()
      ensures Current(View()) == current.View()
    {
    }

    method TriggerSendPrice() returns (price: real)
      requires Valid()
      ensures price == SellSendPrice(View())
    {
      price := target.symbol.adjustPrice(if current.direct then 0.96 * target.sellPrice else target.sellPrice);
    }

    method OpenPosition(reply: string)
      requires Valid()
      modifies current, client
      ensures Valid()
      ensures View() == WithCurrent(old(View()), OpenedLeg(Current(old(View())), reply))
      ensures client.open == if old(current.order.status) == StFilled then old(client.open)
                             else old(client.open).(sells := old(client.open).sells + {reply})
    {
      if current.order.status != StFilled {
        var id := client.CreateOrder(false, reply);
        current.order := current.order.(id := id, status := StNew);
      }
    }

    method CancelPosition()
      requires Valid()
      modifies current, client
      ensures Valid()
      ensures View() == WithCurrent(old(View()), CancelledLeg(Current(old(View()))))
      ensures client.open ==
        if Live(old(current.order)) then old(client.open).(sells := old(client.open).sells - {old(current.order.id)})
        else old(client.open)
    {
      if current.order.status == StPartial && current.order.id != "" {
        client.CancelOrder(false, current.order.id);
        current.order := current.order.(status := StCanceled);
      } else if current.order.status == StNew && current.order.id != "" {
        client.CancelOrder(false, current.order.id);
        current.order := current.order.(status := StCanceled);
      }
    }

    method HandleOrderFilled(r: Event)
      requires Valid() && r.Report? && r.status == StFilled && current.order.id == r.id
      modifies current
      ensures Valid()
      ensures View() == WithCurrent(old(View()), FilledLeg(Current(old(View())), r))
    {
      current.order := current.order.(status := r.status, price := r.lastPrice, realized := r.cumulative);
      current.side := Sold;
    }

    method HandleOrderPartiallyFilled(r: Event)
      requires Valid() && r.Report? && r.status == StPartial && current.order.id == r.id
      modifies current
      ensures Valid()
      ensures View() == WithCurrent(old(View()), PartFilledLeg(Current(old(View())), r))
    {
      current.side := PartiallySold;
      current.order := current.order.(status := r.status, price := r.lastPrice, realized := r.cumulative,
                                      quantityStable := Cost(r.lastPrice, r.lastQuantity));
    }

    method SetState(st: State)
      requires Valid()
      modifies current
      ensures Valid()
      ensures View() == WithCurrent(old(View()), Current(old(View())).(side := st))
    {
      current.side := st;
    }

    method SetStatus(status: Status)
      requires Valid()
      modifies current
      ensures Valid()
      ensures View() == WithCurrent(old(View()),
                                    Current(old(View())).(order := Current(old(View())).order.(status := status)))
    {
      current.order := current.order.(status := status);
    }

    method RecalculateMultihopPrices(feed: real)
      requires Valid()
      modifies legs
      ensures Valid()
      ensures View() == Repriced(old(View()), feed)
    {
      hide Cost, Ratio;
      if |legs| != 2 || feed == 0.0 {
        return;
      }
      var first, second := legs[0], legs[1];
      var adjusted := second.symbol.adjustPrice(feed);
      var price := first.symbol.adjustPrice(Ratio(target.sellPrice, adjusted));
      var stable := target.round8(Cost(price, first.symbol.adjustQuantity(target.quantity)));
      first.order := first.order.(price := price, quantityStable := stable);
      first.sellPrice := price;
      second.order := second.order.(price := adjusted, quantity := second.symbol.adjustQuantity(stable));
      second.sellPrice := feed;
    }

    /** Size a sale that was set up before anything was bought. */
    method SizeOrder(bought: Option<Order>)
      requires Valid()
      modifies current
      ensures Valid()
      ensures View() == WithCurrent(old(View()), Sized(Current(old(View())), bought, old(View())))
    {
      hide Cost;
      if current.order.quantity == 0.0 && bought.Some? && bought.value.realized > 0.0 {
        var sold := 0.0;
        if |legs| == 1 {
          sold := legs[0].order.realized;
        } else if |legs| == 2 {
          sold := legs[1].order.realized;
        }
        var left := if bought.value.realized - sold > 0.0 then bought.value.realized - sold else 0.0;
        if left > 0.0 {
          current.order := current.order.(quantity := left, quantityStable := Cost(current.order.price, left));
          current.quantity := left;
        }
      }
    }

    /** After the first of two legs is sold, the second takes over. */
    method NextLeg()
      requires Valid() && |legs| == 2 && current == legs[0]
      modifies this`current
      ensures Valid() && current == legs[1]
      ensures View() == old(View()).(cursor := OnLeg(1))
    {
      current := legs[1];
    }

    /** After the second, the position the legs came from counts as sold. */
    method FinishLegs()
      requires Valid() && |legs| == 2 && current == legs[1]
      modifies this`current, original
      ensures Valid() && fresh(current)
      ensures var off := old(View()).off;
        View() == old(View()).(cursor := OffLegs,
                               off := off.(order := off.order.(status := StFilled), side := Sold, direct := true))
    {
      original.side := Sold;
      original.order := original.order.(status := StFilled);
      current := new SellPosition(original.View().(direct := true));
    }
  }

  class HpStrategy {
    const client: KrakenClient
    const buy: HPPositionBuy
    const sell: HPPositionSell
    var state: State
    var balance: real
    /** False once the worker has stopped on an exception. */
    var running: bool

    predicate Valid()
      reads this, sell
    {
      sell.Valid() && buy.client == client && sell.client == client
    }

    ghost function View(): Hp
      requires Valid()
      reads this, buy, client, sell, sell.legs, sell.original, sell.current
    {
      Hp(state, balance, buy.View(), sell.View(), client.open, running)
    }

    constructor (client: KrakenClient, balance: real, buy: HPPositionBuy, sell: HPPositionSell,
                 initialState: State := New)
      requires sell.Valid() && buy.client == client && sell.client == client
      ensures Valid() && this.client == client && this.buy == buy && this.sell == sell
      ensures View() == Hp(initialState, balance, buy.View(), sell.View(), client.open, true)
    {
      this.client, this.buy, this.sell, this.state, this.balance, running := client, buy, sell, initialState, balance,
        true;
    }

    // ----- Actions on the buy order -----

    method SendBuyOrders(reply: string)
      requires Valid() && running && state == Buying
      modifies this`balance, this`running, buy, client
      ensures Valid()
      ensures View() == SendBuy(old(View()), reply)
    {
      var left := buy.RemainingQuantity();
      balance := balance - left;
      var prepared := buy.PrepareOrder();
      if !prepared {
        running := false;
        return;
      }
      var sent := buy.OpenPosition(reply);
      buy.side := New;
    }

    method ResendBuyOrders(reply: string)
      requires Valid() && running && state == Buying
      modifies this`balance, this`running, buy, client
      ensures Valid()
      ensures View() == ResendBuy(old(View()), reply)
    {
      var left := buy.RemainingQuantity();
      balance := balance - left;
      var sent := buy.OpenPosition(reply);
      if !sent {
        running := false;
        return;
      }
      buy.side := PartiallyBought;
    }

    method CancelUnfilledBuyOrders()
      requires Valid() && running
      modifies this`balance, this`running, buy, client
      ensures Valid()
      ensures View() == CancelUnfilledBuy(old(View()))
    {
      var left := buy.RemainingQuantity();
      balance := balance + left;
      var cancelled := buy.CancelPosition();
      if !cancelled {
        running := false;
        return;
      }
      buy.side := New;
    }

    method CancelPartiallyBoughtOrders()
      requires Valid() && running
      modifies this`balance, this`running, buy, client
      ensures Valid()
      ensures View() == CancelPartBought(old(View()))
    {
      buy.side := PartiallyBought;
      var left := buy.RemainingQuantity();
      balance := balance + left;
      running := buy.CancelPosition();
    }

    method CloseFilledPositionBuy()
      requires Valid() && running
      modifies this`running, buy
      ensures Valid()
      ensures View() == CloseBuy(old(View()))
    {
      buy.side := Bought;
      running := buy.order.Some?;
    }

    // ----- Actions on the sell order -----

    method SendSellOrder(reply: string, feed: real)
      requires Valid()
      modifies this`state, client, sell.legs, sell.current
      ensures Valid()
      ensures View() == SendSell(old(View()), reply, feed)
    {
      hide Repriced, WithCurrent, Sized, Current, OpenedLeg;
      if |sell.legs| > 1 {
        sell.RecalculateMultihopPrices(feed);
      }
      sell.SizeOrder(buy.order);
      sell.CurrentView();
      sell.OpenPosition(reply);
      state := Selling;
      sell.CurrentView();
      if sell.current.order.status == StFilled {
        sell.SetState(Sold);
      }
    }

    method ResendSellOrder(reply: string)
      requires Valid()
      modifies this`state, client, sell.current
      ensures Valid()
      ensures View() == ResendSell(old(View()), reply)
    {
      sell.OpenPosition(reply);
      state := Selling;
      sell.SetState(PartiallySold);
    }

    method CancelUnfilledSellOrders()
      requires Valid()
      modifies this`state, client, sell.current
      ensures Valid()
      ensures View() == CancelUnfilledSell(old(View()))
    {
      sell.CancelPosition();
      state := if buy.order.Some? && buy.order.value.status == StFilled then Bought else PartiallyBought;
    }

    method CancelPartiallySoldOrders()
      requires Valid()
      modifies client, sell.current
      ensures Valid()
      ensures View() == CancelPartSold(old(View()))
    {
      sell.CancelPosition();
      sell.SetState(PartiallySold);
    }

    method CloseFilledPositionSell(reply: string, feed: real)
      requires Valid()
      modifies this`state, buy, client, sell`current, sell.legs, sell.current, sell.original
      ensures Valid()
      ensures sell.current == old(sell.current) || sell.current in sell.legs || fresh(sell.current)
      ensures View() == CloseSell(old(View()), reply, feed)
    {
      sell.SetState(Sold);
      if |sell.legs| == 2 && sell.current == sell.legs[1] {
        sell.FinishLegs();
      } else if |sell.legs| == 2 && sell.current == sell.legs[0] {
        sell.NextLeg();
        buy.order := None;
        sell.SetState(Selling);
        SendSellOrder(reply, feed);
      }
    }

    // ----- Execution reports -----

    method HandleOrderFilledBuy(r: Event)
      requires Valid() && r.Report? && r.status == StFilled && IsBuyOrder(View(), r.id)
      modifies buy, sell.current
      ensures Valid()
      ensures View() == BuyFilled(old(View()), r)
    {
      if sell.current.side == Sold {
        sell.SetState(PartiallySold);
      }
      buy.HandleOrderFilled(r);
    }

    method ConfirmStatus(id: string, status: Status)
      requires Valid()
      modifies buy, sell.current
      ensures Valid()
      ensures View() == Confirm(old(View()), id, status)
    {
      hide WithCurrent, Current;
      sell.CurrentView();
      if buy.order.Some? && buy.order.value.id == id {
        buy.order := Some(buy.order.value.(status := status));
      }
      if sell.current.order.id == id {
        sell.SetStatus(status);
      }
    }

    method ProcessOrder(r: Event)
      requires Valid() && r.Report?
      modifies buy, sell.current
      ensures Valid()
      ensures View() == OnReport(old(View()), r)
    {
      var ofBuy := buy.order.Some? && buy.order.value.id == r.id;
      var ofSell := sell.current.order.id == r.id;
      if state == Buying && r.limit && r.status == StFilled && ofBuy {
        HandleOrderFilledBuy(r);
      } else if state == Buying && r.limit && r.status == StPartial && ofBuy {
        buy.HandleOrderPartiallyFilled(r);
      } else if state == Selling && r.limit && r.status == StFilled && ofSell {
        sell.HandleOrderFilled(r);
      } else if state == Selling && r.limit && r.status == StPartial && ofSell {
        sell.HandleOrderPartiallyFilled(r);
      } else if (r.limit || r.market) && r.status == StNew && r.symbol == buy.config.symbol.name {
        ConfirmStatus(r.id, StNew);
      } else if r.limit && r.status == StCanceled && r.symbol == buy.config.symbol.name {
        ConfirmStatus(r.id, StCanceled);
      } else if r.limit && r.status == StExpired {
        ConfirmStatus(r.id, StExpired);
      }
    }

    // ----- Tickers -----

    method TickerWhileBuying(price: real)
      requires Valid() && running && state == Buying
      modifies this`state, this`balance, this`running, buy, client
      ensures Valid()
      ensures View() == OnTicker(old(View()), "", price, "", 0.0)
    {
      hide SendBuy, ResendBuy, SendSell, ResendSell, WithCurrent, Current, CancelUnfilledBuy, CancelPartBought,
           CancelUnfilledSell, CancelPartSold, CloseBuy, CloseSell, RemainingBuy;
      sell.CurrentView();
      var bought, sold := buy.side, sell.current.side;
      var status := if buy.order.Some? then buy.order.value.status else StOther;
      if bought == New && sold == New && price >= buy.cancelPrice && (status == StNew || status == StPartial) {
        state := New;
        CancelUnfilledBuyOrders();
      } else if bought == PartiallyBought && sold == New && price >= buy.cancelPrice {
        state := PartiallyBought;
        CancelPartiallyBoughtOrders();
      } else if bought == PartiallyBought && sold == PartiallySold && price >= buy.cancelPrice {
        state := PartSoldPartBought;
        CancelPartiallyBoughtOrders();
      } else if bought == Sold && sold == PartiallyBought && price >= buy.cancelPrice {
        state := SoldPartBought;
        CancelPartiallyBoughtOrders();
      }
    }

    method TickerWhileSelling(symbol: string, price: real)
      requires Valid() && state == Selling
      modifies this`state, client, sell.current
      ensures Valid()
      ensures View() == OnTicker(old(View()), symbol, price, "", 0.0)
    {
      hide SendBuy, ResendBuy, SendSell, ResendSell, WithCurrent, Current, CancelUnfilledBuy, CancelPartBought,
           CancelUnfilledSell, CancelPartSold, CloseBuy, CloseSell, RemainingBuy;
      sell.CurrentView();
      var bought, sold, status := buy.side, sell.current.side, sell.current.order.status;
      var gone := price <= sell.target.symbol.adjustPrice(0.92 * sell.target.sellPrice) &&
        symbol == sell.current.symbol.name;
      if bought == PartiallyBought && sold == New && gone && status == StNew {
        CancelUnfilledSellOrders();
      } else if bought == Bought && sold == New && gone {
        CancelUnfilledSellOrders();
      } else if gone && status != StNew && bought == Bought {
        state := PartiallySold;
        CancelPartiallySoldOrders();
      } else if bought == PartiallyBought && sold == PartiallySold && gone {
        state := PartSoldPartBought;
        CancelPartiallySoldOrders();
      }
    }

    method TickerBeforeSale(symbol: string, price: real, reply: string, feed: real)
      requires Valid() && running && (state == New || state == PartiallyBought || state == Bought)
      modifies this`state, this`balance, this`running, buy, client, sell.legs, sell.current
      ensures Valid()
      ensures View() == OnTicker(old(View()), symbol, price, reply, feed)
    {
      hide SendBuy, ResendBuy, SendSell, ResendSell, WithCurrent, Current, BuySendPrice, SellSendPrice,
           CancelUnfilledBuy, CancelPartBought, CancelUnfilledSell, CancelPartSold, RemainingBuy;
      sell.CurrentView();
      var bought, sold := buy.side, sell.current.side;
      var left := buy.RemainingQuantity();
      var buyPrice := buy.TriggerSendPrice();
      var sendPrice := sell.TriggerSendPrice();
      if state == New {
        if bought == New && price <= buyPrice && balance >= buy.config.budget && buy.order.Some? &&
          buy.order.value.status != StFilled {
          state := Buying;
          SendBuyOrders(reply);
        }
      } else if state == PartiallyBought {
        if bought == PartiallyBought && sold == New && price <= buyPrice && balance >= left {
          state := Buying;
          ResendBuyOrders(reply);
        } else if bought == PartiallyBought && sold == New && price >= sendPrice && symbol == sell.current.symbol.name {
          state := Selling;
          SendSellOrder(reply, feed);
        }
      } else {
        if sold == New && sell.current.sellPrice > 0.0 && price >= sendPrice && symbol == sell.target.symbol.name {
          SendSellOrder(reply, feed);
        }
      }
    }

    /** A ticker that does not let a PARTIALLY_SOLD position be sent again stops the worker. */
    method TickerAfterSale(symbol: string, price: real, reply: string)
      requires Valid() && running && (state == PartiallySold || state == PartSoldPartBought || state == SoldPartBought)
      modifies this`state, this`balance, this`running, buy, client, sell.current
      ensures Valid()
      ensures View() == OnTicker(old(View()), symbol, price, reply, 0.0)
    {
      hide SendBuy, ResendBuy, SendSell, ResendSell, WithCurrent, Current, BuySendPrice, SellSendPrice,
           CancelUnfilledBuy, CancelPartBought, CancelUnfilledSell, CancelPartSold, RemainingBuy;
      sell.CurrentView();
      var bought, sold := buy.side, sell.current.side;
      var buyPrice := buy.TriggerSendPrice();
      var sendPrice := sell.TriggerSendPrice();
      var dear := price >= sendPrice && symbol == sell.current.symbol.name;
      if state == PartiallySold {
        if sold == PartiallySold && bought == Bought && dear {
          state := Selling;
          ResendSellOrder(reply);
        } else {
          running := false;
        }
      } else if state == PartSoldPartBought {
        if bought == PartiallyBought && sold == PartiallySold && dear {
          ResendSellOrder(reply);
        } else if bought == PartiallyBought && sold == PartiallySold && price <= buyPrice {
          state := Buying;
          ResendBuyOrders(reply);
        }
      } else if bought == PartiallyBought && sold == Sold && price <= buyPrice {
        state := Buying;
        ResendBuyOrders(reply);
      }
    }

    method ProcessTicker(symbol: string, price: real, reply: string, feed: real)
      requires Valid() && running
      modifies this`state, this`balance, this`running, buy, client, sell.legs, sell.current
      ensures Valid()
      ensures View() == OnTicker(old(View()), symbol, price, reply, feed)
    {
      if state == Buying {
        TickerWhileBuying(price);
      } else if state == Selling {
        TickerWhileSelling(symbol, price);
      } else if state == New || state == PartiallyBought || state == Bought {
        TickerBeforeSale(symbol, price, reply, feed);
      } else if state == PartiallySold || state == PartSoldPartBought || state == SoldPartBought {
        TickerAfterSale(symbol, price, reply);
      } else if state != Sold && state != Closed {
        running := false;
      }
    }

    method ProcessSignal(allFilled: bool, reply: string, feed: real)
      requires Valid() && running
      modifies this`state, this`running, buy, client, sell`current, sell.legs, sell.current, sell.original
      ensures Valid()
      ensures sell.current == old(sell.current) || sell.current in sell.legs || fresh(sell.current)
      ensures View() == OnSignal(old(View()), allFilled, reply, feed)
    {
      hide SendBuy, ResendBuy, SendSell, ResendSell, WithCurrent, Current, CancelUnfilledBuy, CancelPartBought,
           CancelUnfilledSell, CancelPartSold, CloseBuy, CloseSell, RemainingBuy;
      sell.CurrentView();
      var bought, sold := buy.side, sell.current.side;
      var buyFilled := buy.order.Some? && buy.order.value.status == StFilled;
      var sellFilled := sell.current.order.status == StFilled;
      match state
      case Buying =>
        if sold == New && buyFilled && allFilled {
          state := Bought;
          CloseFilledPositionBuy();
        } else if bought == PartiallyBought && sold == PartiallySold && buyFilled && allFilled {
          state := PartiallySold;
          CloseFilledPositionBuy();
        }
      case Bought =>
        CloseFilledPositionBuy();
      case Selling =>
        if bought == PartiallyBought && sellFilled && allFilled {
          state := SoldPartBought;
          sell.SetState(Sold);
        } else if bought == Bought && sellFilled && allFilled {
          state := Sold;
          CloseFilledPositionSell(reply, feed);
        }
      case _ =>
        running := false;
    }

    // ----- The worker -----

    method Process(e: Event)
      requires Valid()
      modifies this`state, this`balance, this`running, buy, client, sell`current, sell.legs, sell.current, sell.original
      ensures Valid()
      ensures sell.current == old(sell.current) || sell.current in sell.legs || fresh(sell.current)
      ensures View() == Step(old(View()), e)
    {
      match e
      case Closes(id) =>
        client.Closes(id);
      case Ticker(symbol, price, reply, feed) =>
        if running {
          ProcessTicker(symbol, price, reply, feed);
        }
      case Signal(allFilled, reply, feed) =>
        if running {
          ProcessSignal(allFilled, reply, feed);
        }
      case Report(_, _, _, _, _, _, _, _) =>
        if running {
          ProcessOrder(e);
        }
    }

    /** Handling the queue one event at a time is a run of the machine. */
    method Worker(events: seq<Event>)
      requires Valid()
      modifies this`state, this`balance, this`running, buy, client, sell`current, sell.legs, sell.current, sell.original
      ensures Valid()
      ensures View() == Run(old(View()), events)
    {
      ghost var start := View();
      for i := 0 to |events|
        invariant Valid()
        invariant sell.current == old(sell.current) || sell.current in sell.legs || fresh(sell.current)
        invariant View() == Run(start, events[..i])
      {
        Process(events[i]);
        RunSplits(start, events[..i], [events[i]]);
        assert events[..i + 1] == events[..i] + [events[i]];
        assert Run(Run(start, events[..i]), [events[i]]) == Run(Step(Run(start, events[..i]), events[i]), []);
      }
      assert events[..|events|] == events;
    }
  }
}
