/**
 What holds on every run of the HP machine: at most one of the strategy's orders is open,
 its funds are reserved exactly once, an order sent at a price stays at that price, and the
 balance is never overdrawn.
 */
module HpRuns {
  import opened Options
  import opened Money
  import opened HpMachine

  // ----- At most one open order -----

  predicate OneOpen(h: Hp)
  {
    WellFormed(h.sell) &&
    (h.open.buys != {} ==>
      h.state == Buying && h.buy.order.Some? && Live(h.buy.order.value) && h.open.buys == {h.buy.order.value.id}) &&
    (h.open.sells != {} ==> h.state == Selling && Live(SellOrder(h)) && h.open.sells == {SellOrder(h).id})
  }

  /** The exchange gives real ids, and reports an order as over only when it is. */
  predicate Truthful(h: Hp, e: Event)
  {
    match e
    case Ticker(_, _, reply, _) => reply != ""
    case Signal(_, reply, _) => reply != ""
    case Report(_, _, status, id, _, _, _, _) =>
      status == StFilled || status == StCanceled || status == StExpired ==> id !in h.open.buys && id !in h.open.sells
    case Closes(_) => true
  }

  predicate TruthfulRun(h: Hp, events: seq<Event>)
    decreases events
  {
    events == [] || (Truthful(h, events[0]) && TruthfulRun(Step(h, events[0]), events[1..]))
  }

  /** Cancelling leaves nothing open, whichever side the open order was on. */
  lemma CancelledBuyIsClosed(h: Hp, st: State)
    requires OneOpen(h) && h.state == Buying
    ensures OneOpen(CancelUnfilledBuy(h.(state := st))) && CancelUnfilledBuy(h.(state := st)).open == Exchange({}, {})
    ensures OneOpen(CancelPartBought(h.(state := st))) && CancelPartBought(h.(state := st)).open == Exchange({}, {})
  {
    hide RemainingBuy, Current;
    assert h.open.sells == {};
  }

  lemma CancelledSellIsClosed(h: Hp, st: State)
    requires OneOpen(h) && h.state == Selling
    ensures OneOpen(CancelUnfilledSell(h)) && CancelUnfilledSell(h).open == Exchange({}, {})
    ensures OneOpen(CancelPartSold(h.(state := st))) && CancelPartSold(h.(state := st)).open == Exchange({}, {})
  {
    assert h.open.buys == {};
  }

  /** A run from its `i`-th event on is that event and the run after it. */
  lemma RunsFrom(h: Hp, events: seq<Event>, i: nat)
    requires i <= |events|
    ensures i == 0 ==> events[i..] == events
    ensures if i == |events| then Run(h, events[i..]) == h && TruthfulRun(h, events[i..])
            else Run(h, events[i..]) == Run(Step(h, events[i]), events[i + 1..]) &&
                 (TruthfulRun(h, events[i..]) <==>
                  Truthful(h, events[i]) && TruthfulRun(Step(h, events[i]), events[i + 1..]))
  {
    if i < |events| {
      assert events[i..][0] == events[i] && events[i..][1..] == events[i + 1..];
    }
  }

  lemma SubmitSellOpensOne(h: Hp, reply: string)
    requires WellFormed(h.sell) && h.open == Exchange({}, {}) && reply != ""
    ensures OneOpen(SubmitSell(h, reply).(state := Selling))
  {
  }

  lemma RepricedIsWellFormed(h: Hp, feed: real, leg: Leg)
    requires WellFormed(h.sell)
    ensures WellFormed(Repriced(h.sell, feed)) && WellFormed(WithCurrent(h.sell, leg))
  {
  }

  lemma SetSellStateKeepsOneOpen(h: Hp, st: State)
    requires OneOpen(h)
    ensures OneOpen(SetSellState(h, st))
  {
  }

  lemma SendSellOpensOne(h: Hp, reply: string, feed: real)
    requires WellFormed(h.sell) && h.open == Exchange({}, {}) && reply != ""
    ensures OneOpen(SendSell(h, reply, feed)) && OneOpen(ResendSell(h, reply))
  {
    hide OneOpen, SubmitSell, Repriced, WithCurrent, SetSellState, Sized, WellFormed;
    var s := if |h.sell.legs| > 1 then Repriced(h.sell, feed) else h.sell;
    var h1 := h.(sell := WithCurrent(s, Sized(Current(s), h.buy.order, s)));
    RepricedIsWellFormed(h, feed, Current(s));
    RepricedIsWellFormed(h.(sell := s), feed, Sized(Current(s), h.buy.order, s));
    SubmitSellOpensOne(h1, reply);
    SubmitSellOpensOne(h, reply);
    SetSellStateKeepsOneOpen(SubmitSell(h1, reply).(state := Selling), Sold);
    SetSellStateKeepsOneOpen(SubmitSell(h, reply).(state := Selling), PartiallySold);
  }

  lemma SendKeepsOneOpen(h: Hp, reply: string, feed: real)
    requires WellFormed(h.sell) && h.open == Exchange({}, {}) && reply != ""
    ensures OneOpen(SendSell(h, reply, feed)) && OneOpen(ResendSell(h, reply))
    ensures h.state == Buying ==> OneOpen(SendBuy(h, reply)) && OneOpen(ResendBuy(h, reply))
  {
    hide SendSell, ResendSell;
    SendSellOpensOne(h, reply, feed);
  }

  lemma TickerKeepsOneOpen(h: Hp, symbol: string, price: real, reply: string, feed: real)
    requires OneOpen(h) && reply != ""
    ensures OneOpen(OnTicker(h, symbol, price, reply, feed))
  {
    hide SendBuy, ResendBuy, SendSell, ResendSell, CancelUnfilledBuy, CancelPartBought, CancelUnfilledSell,
         CancelPartSold, SellSendPrice, SellCancelPrice, BuySendPrice, RemainingBuy, Current, WellFormed;
    if h.state == Buying {
      CancelledBuyIsClosed(h, New);
      CancelledBuyIsClosed(h, PartiallyBought);
      CancelledBuyIsClosed(h, PartSoldPartBought);
      CancelledBuyIsClosed(h, SoldPartBought);
    } else if h.state == Selling {
      CancelledSellIsClosed(h, PartiallySold);
      CancelledSellIsClosed(h, PartSoldPartBought);
    } else {
      assert h.open == Exchange({}, {});
      SendKeepsOneOpen(h, reply, feed);
      SendKeepsOneOpen(h.(state := Buying), reply, feed);
      SendKeepsOneOpen(h.(state := Selling), reply, feed);
    }
  }

  lemma SignalKeepsOneOpen(h: Hp, allFilled: bool, reply: string, feed: real)
    requires OneOpen(h) && reply != ""
    ensures OneOpen(OnSignal(h, allFilled, reply, feed))
  {
    hide SendSell;
    if h.state == Selling && SellOrder(h).status == StFilled {
      assert h.open == Exchange({}, {});
      var h1 := SetSellState(h.(state := Sold), Sold);
      var h2 := h1.(sell := h1.sell.(cursor := OnLeg(1)), buy := h1.buy.(order := None));
      if |h.sell.legs| == 2 {
        SendKeepsOneOpen(SetSellState(h2, Selling), reply, feed);
      }
    }
  }

  /** The current order may be rewritten as long as it stays live while it is open. */
  lemma RewrittenSellKeepsOneOpen(h: Hp, leg: Leg)
    requires OneOpen(h) && leg.order.id == SellOrder(h).id
    requires h.open.sells != {} ==> leg.order.status == StNew || leg.order.status == StPartial
    ensures OneOpen(SetSell(h, leg))
  {
  }

  lemma RewrittenBuyKeepsOneOpen(h: Hp, o: Order, side: State)
    requires OneOpen(h) && h.buy.order.Some? && o.id == h.buy.order.value.id
    requires h.open.buys != {} ==> o.status == StNew || o.status == StPartial
    ensures OneOpen(h.(buy := h.buy.(order := Some(o), side := side)))
  {
  }

  lemma SetSellLeavesRest(h: Hp, leg: Leg)
    ensures SetSell(h, leg).(sell := h.sell) == h
  {
  }

  lemma FillKeepsOneOpen(h: Hp, e: Event)
    requires OneOpen(h) && e.Report? && Truthful(h, e)
    requires h.state == Buying && IsBuyOrder(h, e.id) && (e.status == StFilled || e.status == StPartial)
    ensures e.status == StFilled ==> OneOpen(BuyFilled(h, e))
    ensures e.status == StPartial ==> OneOpen(BuyPartFilled(h, e))
  {
    hide SetSell, Current;
    var o := h.buy.order.value.(price := e.lastPrice, realized := e.cumulative);
    assert h.open.sells == {};
    RewrittenSellKeepsOneOpen(h, Current(h.sell).(side := PartiallySold));
    if e.status == StFilled {
      var h1 := if SellState(h) == Sold then SetSellState(h, PartiallySold) else h;
      SetSellLeavesRest(h, Current(h.sell).(side := PartiallySold));
      RewrittenBuyKeepsOneOpen(h1, o.(status := StFilled), PartiallyBought);
    } else {
      var left := o.quantityStable - Cost(e.lastPrice, e.lastQuantity);
      RewrittenBuyKeepsOneOpen(h, o.(status := StPartial, quantityStable := left), PartiallyBought);
    }
  }

  lemma SaleKeepsOneOpen(h: Hp, e: Event)
    requires OneOpen(h) && e.Report? && Truthful(h, e)
    requires h.state == Selling && SellOrder(h).id == e.id && (e.status == StFilled || e.status == StPartial)
    ensures e.status == StFilled ==> OneOpen(SellFilled(h, e))
    ensures e.status == StPartial ==> OneOpen(SellPartFilled(h, e))
  {
    hide WithCurrent;
    var leg := Current(h.sell);
    var order := leg.order.(status := e.status, price := e.lastPrice, realized := e.cumulative);
    if e.status == StFilled {
      RewrittenSellKeepsOneOpen(h, leg.(side := Sold, order := order));
    } else {
      RewrittenSellKeepsOneOpen(h, PartFilledLeg(leg, e));
    }
  }

  lemma ConfirmKeepsOneOpen(h: Hp, id: string, status: Status)
    requires OneOpen(h) && (id in h.open.buys || id in h.open.sells ==> status == StNew)
    ensures OneOpen(Confirm(h, id, status))
  {
    hide WithCurrent, Current;
    var h1 := h;
    if IsBuyOrder(h, id) {
      RewrittenBuyKeepsOneOpen(h, h.buy.order.value.(status := status), h.buy.side);
      h1 := h.(buy := h.buy.(order := Some(h.buy.order.value.(status := status))));
    }
    var leg := Current(h1.sell);
    if leg.order.id == id {
      RewrittenSellKeepsOneOpen(h1, leg.(order := leg.order.(status := status)));
    }
  }

  lemma ReportKeepsOneOpen(h: Hp, e: Event)
    requires OneOpen(h) && e.Report? && Truthful(h, e)
    ensures OneOpen(OnReport(h, e))
  {
    hide BuyFilled, BuyPartFilled, SellFilled, SellPartFilled, Confirm, OneOpen;
    if h.state == Buying && IsBuyOrder(h, e.id) && (e.status == StFilled || e.status == StPartial) {
      FillKeepsOneOpen(h, e);
    }
    if h.state == Selling && SellOrder(h).id == e.id && (e.status == StFilled || e.status == StPartial) {
      SaleKeepsOneOpen(h, e);
    }
    if e.status == StNew || e.status == StCanceled || e.status == StExpired {
      assert e.id in h.open.buys || e.id in h.open.sells ==> e.status == StNew;
      ConfirmKeepsOneOpen(h, e.id, e.status);
    }
  }

  lemma StepKeepsOneOpen(h: Hp, e: Event)
    requires OneOpen(h) && Truthful(h, e)
    ensures OneOpen(Step(h, e))
  {
    hide OnTicker, OnSignal, OnReport;
    if h.running {
      match e
      case Ticker(symbol, price, reply, feed) => TickerKeepsOneOpen(h, symbol, price, reply, feed);
      case Signal(allFilled, reply, feed) => SignalKeepsOneOpen(h, allFilled, reply, feed);
      case Report(_, _, _, _, _, _, _, _) => ReportKeepsOneOpen(h, e);
      case Closes(_) =>
    }
  }

  lemma {:induction false} RunKeepsOneOpen(h: Hp, events: seq<Event>)
    requires OneOpen(h) && TruthfulRun(h, events)
    ensures OneOpen(Run(h, events))
    decreases events
  {
    if events != [] {
      StepKeepsOneOpen(h, events[0]);
      RunKeepsOneOpen(Step(h, events[0]), events[1..]);
    }
  }

  /** From any state with nothing open, every run has at most one open order, a buy only
      while BUYING and a sell only while SELLING. */
  lemma AtMostOneOpenOrder(h: Hp, events: seq<Event>)
    requires WellFormed(h.sell) && h.open == Exchange({}, {}) && TruthfulRun(h, events)
    ensures var g := Run(h, events);
      |g.open.buys| + |g.open.sells| <= 1 &&
      (g.open.buys != {} ==> g.state == Buying) && (g.open.sells != {} ==> g.state == Selling)
  {
    RunKeepsOneOpen(h, events);
  }

  // ----- Reservation of balance -----

  /** Balance plus what the live buy order still holds back. */
  function Held(h: Hp): real
  {
    h.balance + if h.state == Buying then RemainingBuy(h.buy) else 0.0
  }

  predicate AsPrepared(o: Order, c: BuyConfig)
  {
    o.quantityStable == c.budget && o.realized == 0.0 && o.price == c.symbol.adjustPrice(c.buyPrice)
  }

  /** Until its first fill the buy order is the one prepared from the configuration. */
  predicate Unfilled(h: Hp)
  {
    (h.state == New || (h.state == Buying && h.buy.side == New)) && h.buy.order.Some? ==>
      AsPrepared(h.buy.order.value, h.buy.config)
  }

  /** Nothing done for the sell side touches the balance or the buy side. */
  lemma SellingLeavesBuy(h: Hp, reply: string, feed: real)
    ensures SendSell(h, reply, feed).(sell := h.sell, open := h.open) == h.(state := Selling)
    ensures ResendSell(h, reply).(sell := h.sell, open := h.open) == h.(state := Selling)
    ensures CancelSell(h).(sell := h.sell, open := h.open) == h
    ensures CancelPartSold(h).(sell := h.sell, open := h.open) == h
  {
    hide Repriced, WithCurrent, Sized, Current;
  }

  lemma CloseSellSells(h: Hp, reply: string, feed: real)
    requires h.state == Sold
    ensures var g := CloseSell(h, reply, feed);
      (g.state == Selling || g.state == Sold) && g.balance == h.balance &&
        (g.buy == h.buy || g.buy == h.buy.(order := None))
  {
    hide SendSell;
    var h1 := SetSellState(h, Sold);
    var h2 := h1.(sell := h1.sell.(cursor := OnLeg(1)), buy := h1.buy.(order := None));
    SellingLeavesBuy(SetSellState(h2, Selling), reply, feed);
  }

  lemma StepKeepsUnfilled(h: Hp, e: Event)
    requires Unfilled(h)
    ensures Unfilled(Step(h, e))
  {
    hide SendSell, ResendSell, CancelSell, CancelPartSold, RemainingBuy, WithCurrent, SellSendPrice, SellCancelPrice;
    if e.Ticker? {
      SellingLeavesBuy(h, e.reply, e.feed);
      SellingLeavesBuy(h.(state := Selling), e.reply, e.feed);
      SellingLeavesBuy(h.(state := PartiallySold), e.reply, e.feed);
      SellingLeavesBuy(h.(state := PartSoldPartBought), e.reply, e.feed);
    } else if e.Signal? && h.state == Selling {
      CloseSellSells(h.(state := Sold), e.reply, e.feed);
    }
  }

  lemma {:induction false} RunKeepsUnfilled(h: Hp, events: seq<Event>)
    requires Unfilled(h)
    ensures Unfilled(Run(h, events))
    decreases events
  {
    if events != [] {
      StepKeepsUnfilled(h, events[0]);
      RunKeepsUnfilled(Step(h, events[0]), events[1..]);
    }
  }

  lemma BuyingKeepsHeld(h: Hp, reply: string, st: State)
    requires Unfilled(h)
    ensures h.state == New && h.buy.order.Some? ==> Held(SendBuy(h.(state := Buying), reply)) == Held(h)
    ensures h.state != Buying ==> Held(ResendBuy(h.(state := Buying), reply)) == Held(h)
    ensures h.state == Buying && st != Buying ==> Held(CancelPartBought(h.(state := st))) == Held(h)
    ensures h.state == Buying ==> Held(CancelUnfilledBuy(h.(state := New))) == Held(h)
  {
    hide Band, CanSendBuy;
  }

  lemma TickerKeepsHeld(h: Hp, symbol: string, price: real, reply: string, feed: real)
    requires Unfilled(h)
    ensures Held(OnTicker(h, symbol, price, reply, feed)) == Held(h)
  {
    hide SendBuy, ResendBuy, CancelPartBought, CancelUnfilledBuy, SendSell, ResendSell, CancelSell, CancelPartSold,
         WithCurrent, SellSendPrice, SellCancelPrice, BuySendPrice, Current, RemainingBuy, Unfilled;
    BuyingKeepsHeld(h, reply, PartiallyBought);
    BuyingKeepsHeld(h, reply, PartSoldPartBought);
    BuyingKeepsHeld(h, reply, SoldPartBought);
    SellingLeavesBuy(h, reply, feed);
    SellingLeavesBuy(h.(state := Selling), reply, feed);
    SellingLeavesBuy(h.(state := PartiallySold), reply, feed);
    SellingLeavesBuy(h.(state := PartSoldPartBought), reply, feed);
  }

  predicate OnlyTickers(events: seq<Event>)
  {
    forall e <- events :: e.Ticker?
  }

  /** Along any stretch of tickers inside any run, through every send, cancel and resend. */
  lemma {:induction false} HeldIsConstant(h: Hp, before: seq<Event>, tickers: seq<Event>)
    requires Unfilled(h) && OnlyTickers(tickers)
    ensures Held(Run(h, before + tickers)) == Held(Run(h, before))
    decreases |tickers|
  {
    hide OnTicker, Held;
    if tickers == [] {
      assert before + tickers == before;
    } else {
      var g := Run(h, before);
      RunKeepsUnfilled(h, before);
      RunSplits(h, before, [tickers[0]]);
      assert Run(g, [tickers[0]]) == Run(Step(g, tickers[0]), []);
      var t := tickers[0];
      TickerKeepsHeld(g, t.symbol, t.price, t.reply, t.feed);
      HeldIsConstant(h, before + [t], tickers[1..]);
      assert before + [t] + tickers[1..] == before + tickers;
    }
  }

  /** Sending takes what the old order had left but reserves the whole budget: the sum is
      kept exactly when the two agree, which `Unfilled` guarantees. */
  lemma SendKeepsHeldIff(h: Hp, price: real, reply: string)
    requires h.state == New && h.running && CanSendBuy(h, price) && h.buy.config.buyPrice > 0.0
    ensures Held(Step(h, Ticker("", price, reply, 0.0))) == Held(h) <==> RemainingBuy(h.buy) == h.buy.config.budget
  {
  }

  // ----- The balance is never overdrawn -----

  predicate WithinAmounts(o: Order)
  {
    o.quantityStable >= 0.0 && (o.realized == 0.0 || 0.0 <= o.realized <= o.quantity)
  }

  /** Every state outside BUYING keeps enough for its buy order to be sent again. */
  predicate Solvent(h: Hp)
  {
    Unfilled(h) && h.balance >= 0.0 && h.buy.config.budget >= 0.0 &&
    (h.buy.order.Some? ==> WithinAmounts(h.buy.order.value)) &&
    (h.state != New && h.state != Buying && h.buy.side == PartiallyBought ==> h.balance >= RemainingBuy(h.buy))
  }

  /** Executions stay within the order's quantity and its stable amount. */
  predicate WithinOrder(h: Hp, e: Event)
  {
    e.Report? && h.state == Buying && IsBuyOrder(h, e.id) && (e.status == StFilled || e.status == StPartial) ==>
      0.0 <= e.cumulative <= h.buy.order.value.quantity &&
      (e.status == StPartial ==> Cost(e.lastPrice, e.lastQuantity) <= h.buy.order.value.quantityStable)
  }

  predicate WithinOrders(h: Hp, events: seq<Event>)
    decreases events
  {
    events == [] || (WithinOrder(h, events[0]) && WithinOrders(Step(h, events[0]), events[1..]))
  }

  lemma RemainingIsNotNegative(b: BuySide)
    requires b.order.Some? ==> WithinAmounts(b.order.value)
    ensures RemainingBuy(b) >= 0.0
  {
    if b.order.Some? && b.order.value.realized != 0.0 {
      var o := b.order.value;
      var share := Ratio(o.realized, o.quantity);
      assert 0.0 <= share <= 1.0;
      assert o.quantityStable * (1.0 - share) >= 0.0;
    }
  }

  lemma PreparedIsWhole(h: Hp)
    requires Unfilled(h) && h.state == New && h.buy.order.Some?
    ensures RemainingBuy(h.buy) == h.buy.config.budget
  {
  }

  lemma SendKeepsSolvent(h: Hp, price: real, reply: string)
    requires Solvent(h) && h.state == New && CanSendBuy(h, price)
    ensures Solvent(SendBuy(h.(state := Buying), reply))
  {
    hide Ratio;
    PreparedIsWhole(h);
  }

  lemma ResendKeepsSolvent(h: Hp, reply: string)
    requires Solvent(h) && h.buy.side == PartiallyBought && h.balance >= RemainingBuy(h.buy)
    ensures Solvent(ResendBuy(h.(state := Buying), reply))
  {
    hide Ratio;
  }

  lemma CancelKeepsSolvent(h: Hp, st: State)
    requires Solvent(h) && h.state == Buying
    ensures st != New && st != Buying ==> Solvent(CancelPartBought(h.(state := st)))
    ensures h.buy.side == New ==> Solvent(CancelUnfilledBuy(h.(state := New)))
  {
    hide Ratio;
    RemainingIsNotNegative(h.buy);
  }

  lemma TickerKeepsSolvent(h: Hp, symbol: string, price: real, reply: string, feed: real)
    requires Solvent(h)
    ensures Solvent(OnTicker(h, symbol, price, reply, feed))
  {
    hide SendBuy, ResendBuy, CancelPartBought, CancelUnfilledBuy, SendSell, ResendSell, CancelSell, CancelPartSold,
         WithCurrent, SellSendPrice, SellCancelPrice, BuySendPrice, RemainingBuy;
    if h.state == Buying {
      CancelKeepsSolvent(h, PartiallyBought);
      CancelKeepsSolvent(h, PartSoldPartBought);
      CancelKeepsSolvent(h, SoldPartBought);
    } else if h.state == New {
      if CanSendBuy(h, price) {
        SendKeepsSolvent(h, price, reply);
      }
    } else {
      if h.buy.side == PartiallyBought {
        ResendKeepsSolvent(h, reply);
      }
      SellingLeavesBuy(h, reply, feed);
      SellingLeavesBuy(h.(state := Selling), reply, feed);
      SellingLeavesBuy(h.(state := PartiallySold), reply, feed);
      SellingLeavesBuy(h.(state := PartSoldPartBought), reply, feed);
    }
  }

  /** Only a fill changes what the buy order has left, and it leaves the position BUYING. */
  lemma ReportKeepsSolvent(h: Hp, e: Event)
    requires Solvent(h) && WithinOrder(h, e) && e.Report?
    requires Unfilled(OnReport(h, e))
    ensures Solvent(OnReport(h, e))
  {
    hide Unfilled, WithCurrent, Current, Ratio;
  }

  lemma SignalKeepsSolvent(h: Hp, e: Event)
    requires Solvent(h) && e.Signal?
    requires Unfilled(OnSignal(h, e.allFilled, e.reply, e.feed))
    ensures Solvent(OnSignal(h, e.allFilled, e.reply, e.feed))
  {
    hide CloseSell, OrderLeft, WithCurrent, Unfilled;
    CloseSellSells(h.(state := Sold), e.reply, e.feed);
  }

  lemma SolventIsUnfilled(h: Hp)
    requires Solvent(h)
    ensures Unfilled(h)
  {
  }

  lemma ClosingKeepsSolvent(h: Hp, id: string)
    requires Solvent(h)
    ensures Solvent(Step(h, Closes(id)))
  {
    hide RemainingBuy, AsPrepared;
  }

  lemma StepKeepsSolvent(h: Hp, e: Event)
    requires Solvent(h) && WithinOrder(h, e)
    ensures Solvent(Step(h, e))
  {
    hide OnTicker, OnSignal, OnReport, Solvent, Unfilled;
    assert Unfilled(h) by { SolventIsUnfilled(h); }
    StepKeepsUnfilled(h, e);
    if h.running {
      match e
      case Ticker(symbol, price, reply, feed) => TickerKeepsSolvent(h, symbol, price, reply, feed);
      case Signal(_, _, _) => SignalKeepsSolvent(h, e);
      case Report(_, _, _, _, _, _, _, _) => ReportKeepsSolvent(h, e);
      case Closes(id) => ClosingKeepsSolvent(h, id);
    } else if e.Closes? {
      ClosingKeepsSolvent(h, e.id);
    }
  }

  lemma SolventBalance(h: Hp)
    requires Solvent(h)
    ensures h.balance >= 0.0
  {
  }

  /** Resends from PART_SOLD_PART_BOUGHT and SOLD_PART_BOUGHT do not look at the balance;
      they need not. */
  lemma {:induction false} BalanceIsNeverOverdrawn(h: Hp, events: seq<Event>)
    requires Solvent(h) && WithinOrders(h, events)
    ensures Solvent(Run(h, events)) && Run(h, events).balance >= 0.0
    decreases events
  {
    hide Solvent, WithinOrder, Step;
    if events != [] {
      StepKeepsSolvent(h, events[0]);
      BalanceIsNeverOverdrawn(Step(h, events[0]), events[1..]);
    } else {
      SolventBalance(h);
    }
  }

  // ----- An order sent at a price stays at that price -----

  predicate Sends(h: Hp, e: Event)
  {
    !(Step(h, e).open.buys <= h.open.buys && Step(h, e).open.sells <= h.open.sells)
  }

  predicate BuyBandIsStrict(b: BuySide)
  {
    b.order.Some? ==>
      Band(b.config, b.order.value.price, b.config.trigger) < Band(b.config, b.order.value.price,
                                                                   2.0 * b.config.trigger)
  }

  predicate SellBandIsStrict(s: SellSide)
  {
    SellCancelPrice(s) < SellSendPrice(s)
  }

  /** The price band of the side whose order is out is still open after rounding. */
  predicate BandIsStrict(h: Hp)
  {
    if h.state == Buying then BuyBandIsStrict(h.buy) else SellBandIsStrict(h.sell)
  }

  predicate OutOfReach(h: Hp, price: real)
  {
    (h.state == Buying && price < h.buy.cancelPrice) || (h.state == Selling && price > SellCancelPrice(h.sell))
  }

  /** A buy is sent at or under the send price of the order it sends. */
  lemma SentBuyIsOutOfReach(h: Hp, price: real, reply: string)
    requires h.running && h.buy.order.Some? && price <= BuySendPrice(h.buy)
    ensures h.buy.order.value.status != StFilled ==>
      var g := ResendBuy(h, reply);
      BandIsStrict(g) ==> OutOfReach(g, price)
    ensures h.buy.order.value.status == StFilled ==> ResendBuy(h, reply).open == h.open
    ensures AsPrepared(h.buy.order.value, h.buy.config) ==>
      var g := SendBuy(h, reply);
      g.open == h.open || (BandIsStrict(g) ==> OutOfReach(g, price))
  {
    hide Band, SellSendPrice, SellCancelPrice, RemainingBuy;
  }

  lemma ResendWithoutOrder(h: Hp, reply: string)
    requires h.buy.order.None?
    ensures ResendBuy(h, reply).open == h.open
  {
  }

  lemma CurrentIsReplaced(s: SellSide, leg: Leg)
    ensures Current(WithCurrent(s, leg)) == leg && WithCurrent(s, leg).target == s.target
  {
  }

  lemma RepricedKeepsDirect(s: SellSide, feed: real)
    ensures Repriced(s, feed).target == s.target && Current(Repriced(s, feed)).direct == Current(s).direct
  {
  }

  lemma SizedKeepsDirect(leg: Leg, buyOrder: Option<Order>, s: SellSide)
    ensures Sized(leg, buyOrder, s).direct == leg.direct
  {
  }

  lemma SubmitKeepsDirect(h: Hp, reply: string)
    ensures SubmitSell(h, reply).sell.target == h.sell.target
    ensures Current(SubmitSell(h, reply).sell).direct == Current(h.sell).direct
  {
    hide Current, WithCurrent;
    var leg := Current(h.sell);
    CurrentIsReplaced(h.sell, OpenedLeg(leg, reply));
  }

  lemma SetSellStateKeepsDirect(h: Hp, st: State)
    ensures SetSellState(h, st).sell.target == h.sell.target
    ensures Current(SetSellState(h, st).sell).direct == Current(h.sell).direct
  {
    hide Current, WithCurrent;
    CurrentIsReplaced(h.sell, Current(h.sell).(side := st));
  }

  /** Sending a sale changes neither of the prices that decide about it. */
  lemma SendingKeepsSellPrices(h: Hp, reply: string, feed: real)
    ensures var g := SendSell(h, reply, feed);
      SellSendPrice(g.sell) == SellSendPrice(h.sell) && SellCancelPrice(g.sell) == SellCancelPrice(h.sell)
    ensures var g := ResendSell(h, reply);
      SellSendPrice(g.sell) == SellSendPrice(h.sell) && SellCancelPrice(g.sell) == SellCancelPrice(h.sell)
  {
    hide Sized, Repriced, Current, WithCurrent, SubmitSell, SetSellState;
    var s := if |h.sell.legs| > 1 then Repriced(h.sell, feed) else h.sell;
    RepricedKeepsDirect(h.sell, feed);
    SizedKeepsDirect(Current(s), h.buy.order, s);
    CurrentIsReplaced(s, Sized(Current(s), h.buy.order, s));
    var h1 := h.(sell := WithCurrent(s, Sized(Current(s), h.buy.order, s)));
    SubmitKeepsDirect(h1, reply);
    SetSellStateKeepsDirect(SubmitSell(h1, reply).(state := Selling), Sold);
    SubmitKeepsDirect(h, reply);
    SetSellStateKeepsDirect(SubmitSell(h, reply).(state := Selling), PartiallySold);
  }

  lemma CancelsOpenNothing(h: Hp)
    ensures CancelBuy(h).open.buys <= h.open.buys && CancelBuy(h).open.sells == h.open.sells
    ensures CancelSell(h).open.sells <= h.open.sells && CancelSell(h).open.buys == h.open.buys
    ensures CancelPartSold(h).open.sells <= h.open.sells && CancelPartSold(h).open.buys == h.open.buys
  {
    hide Current, WithCurrent;
  }

  lemma RemainingIgnoresSide(h: Hp, st: State)
    ensures RemainingBuy(SetBuyState(h, st).buy) == RemainingBuy(h.buy)
  {
  }

  lemma NothingIsSentWhileLive(h: Hp, symbol: string, price: real, reply: string, feed: real)
    requires h.state == Buying || h.state == Selling
    ensures var g := OnTicker(h, symbol, price, reply, feed);
      g.open.buys <= h.open.buys && g.open.sells <= h.open.sells
  {
    hide CancelSell, CancelBuy, CancelPartSold, SellSendPrice, SellCancelPrice, BuySendPrice, RemainingBuy, Current,
         WithCurrent;
    CancelsOpenNothing(h);
    CancelsOpenNothing(h.(state := PartiallySold));
    CancelsOpenNothing(h.(state := PartSoldPartBought));
    var paid := h.(balance := h.balance + RemainingBuy(h.buy));
    CancelsOpenNothing(paid.(state := New));
    var part := SetBuyState(paid, PartiallyBought);
    CancelsOpenNothing(part.(state := PartiallyBought));
    CancelsOpenNothing(part.(state := PartSoldPartBought));
    CancelsOpenNothing(part.(state := SoldPartBought));
    assert RemainingBuy(h.buy) == RemainingBuy(SetBuyState(h, PartiallyBought).buy) by {
      RemainingIgnoresSide(h, PartiallyBought);
    }
  }

  lemma SentOrderIsOutOfReach(h: Hp, symbol: string, price: real, reply: string, feed: real)
    requires Unfilled(h) && h.running && BandIsStrict(Step(h, Ticker(symbol, price, reply, feed)))
    requires Sends(h, Ticker(symbol, price, reply, feed))
    ensures OutOfReach(Step(h, Ticker(symbol, price, reply, feed)), price)
  {
    hide SendBuy, ResendBuy, SendSell, ResendSell, CancelBuy, CancelSell, CancelPartSold, SellSendPrice,
         SellCancelPrice, BuySendPrice, RemainingBuy, Current, WithCurrent, AsPrepared;
    if h.state == Buying || h.state == Selling {
      NothingIsSentWhileLive(h, symbol, price, reply, feed);
    } else {
      var at := if h.state == PartiallyBought || h.state == PartiallySold then h.(state := Selling) else h;
      SellingLeavesBuy(at, reply, feed);
      SendingKeepsSellPrices(at, reply, feed);
      if h.buy.order.None? {
        ResendWithoutOrder(h.(state := Buying), reply);
      } else if price <= BuySendPrice(h.buy) {
        SentBuyIsOutOfReach(h.(state := Buying), price, reply);
      }
    }
  }

  lemma {:induction false} OutOfReachStays(h: Hp, price: real, tickers: seq<Event>)
    requires OutOfReach(h, price) && OnlyTickers(tickers) && forall t <- tickers :: t.price == price
    ensures Run(h, tickers) == h
    decreases tickers
  {
    if tickers != [] {
      assert tickers[0].price == price;
      assert Step(h, tickers[0]) == h;
      OutOfReachStays(h, price, tickers[1..]);
    }
  }

  /** Any number of further tickers at the price an order was sent at change nothing. */
  lemma SentOrderStays(h: Hp, symbol: string, price: real, reply: string, feed: real, tickers: seq<Event>)
    requires Unfilled(h) && h.running && BandIsStrict(Step(h, Ticker(symbol, price, reply, feed)))
    requires Sends(h, Ticker(symbol, price, reply, feed))
    requires OnlyTickers(tickers) && forall t <- tickers :: t.price == price
    ensures Run(Step(h, Ticker(symbol, price, reply, feed)), tickers) == Step(h, Ticker(symbol, price, reply, feed))
  {
    SentOrderIsOutOfReach(h, symbol, price, reply, feed);
    OutOfReachStays(Step(h, Ticker(symbol, price, reply, feed)), price, tickers);
  }

  /** Without rounding the buy band is strict exactly when trigger and price are of one sign. */
  lemma BuyBandWithoutRoundingIff(b: BuySide)
    requires (forall x: real :: b.config.symbol.adjustPrice(x) == x) && b.order.Some?
    ensures BuyBandIsStrict(b) <==> b.order.value.price * b.config.trigger > 0.0
  {
    var price, share := b.order.value.price, b.config.trigger / 100.0;
    assert Above(price, 2.0 * b.config.trigger) - Above(price, b.config.trigger) == price * share;
    assert price * b.config.trigger == price * share * 100.0;
  }

  /** And the sell band exactly when there is a sell price. */
  lemma SellBandWithoutRoundingIff(s: SellSide)
    requires forall x: real :: s.target.symbol.adjustPrice(x) == x
    ensures SellBandIsStrict(s) <==> s.target.sellPrice > 0.0
  {
  }

  /** A strategy about to buy, with its first order and no sale. */
  predicate ReadyToBuy(h: Hp)
  {
    h.running && h.state == New && h.buy.side == New && SellState(h) == New && Unfilled(h) &&
    h.buy.order.Some? && h.buy.order.value.status != StFilled && h.buy.config.buyPrice > 0.0 &&
    h.balance >= h.buy.config.budget
  }

  function BuyBand(c: BuyConfig, percent: real): real
  {
    Band(c, c.symbol.adjustPrice(c.buyPrice), percent)
  }

  /** So with a positive trigger and no rounding the first buy order of any position, with a sale
      configured or without, is left alone by every further ticker at the price it was sent at. */
  lemma FirstOrderStays(h: Hp, symbol: string, price: real, reply: string, feed: real, tickers: seq<Event>)
    requires ReadyToBuy(h) && price <= BuyBand(h.buy.config, h.buy.config.trigger) && reply !in h.open.buys
    requires (forall x: real :: h.buy.config.symbol.adjustPrice(x) == x) && h.buy.config.trigger > 0.0
    requires OnlyTickers(tickers) && forall t <- tickers :: t.price == price
    ensures var sent := Step(h, Ticker(symbol, price, reply, feed));
      sent.state == Buying && reply in sent.open.buys && Run(sent, tickers) == sent
  {
    hide RemainingBuy;
    var sent := Step(h, Ticker(symbol, price, reply, feed));
    assert sent.state == Buying && sent.buy.order.Some? && sent.buy.order.value.price == h.buy.config.buyPrice;
    assert sent.buy.config == h.buy.config;
    hide Step, Run;
    BuyBandWithoutRoundingIff(sent.buy);
    SentOrderStays(h, symbol, price, reply, feed, tickers);
  }

  /** An order sent at a price, at or under the trigger, is cancelled by the next ticker at that
      price exactly when rounding has put the cancel price at or under it. */
  lemma SendIsCancelledAtOnceIff(h: Hp, symbol: string, price: real, reply: string, feed: real)
    requires ReadyToBuy(h) && price <= BuyBand(h.buy.config, h.buy.config.trigger)
    ensures var t := Ticker(symbol, price, reply, feed);
      Step(h, t).state == Buying &&
        (Step(Step(h, t), t).state == New <==> BuyBand(h.buy.config, 2.0 * h.buy.config.trigger) <= price)
  {
  }

  // ----- Buying again for a sold position -----

  predicate BuySideKnown(h: Hp)
  {
    h.buy.side == New || h.buy.side == PartiallyBought || h.buy.side == Bought
  }

  lemma BuySideStaysKnown(h: Hp, e: Event)
    requires BuySideKnown(h)
    ensures BuySideKnown(Step(h, e))
  {
    hide SendSell, ResendSell, CancelSell, CancelPartSold, WithCurrent, Current, RemainingBuy, BuySendPrice,
         SellSendPrice, SellCancelPrice;
    if e.Ticker? {
      SellingLeavesBuy(h, e.reply, e.feed);
      SellingLeavesBuy(h.(state := Selling), e.reply, e.feed);
      SellingLeavesBuy(h.(state := PartiallySold), e.reply, e.feed);
      SellingLeavesBuy(h.(state := PartSoldPartBought), e.reply, e.feed);
    } else if e.Signal? {
      CloseSellSells(h.(state := Sold), e.reply, e.feed);
    }
  }

  /** The buy side is never SOLD, so the transition from BUYING back to SOLD_PART_BOUGHT,
      which asks for it, never fires. */
  lemma {:induction false} BuySideIsNeverSold(h: Hp, events: seq<Event>, price: real)
    requires BuySideKnown(h)
    ensures BuySideKnown(Run(h, events)) && !CanCancelBuy(Run(h, events), Sold, PartiallyBought, price)
    decreases events
  {
    hide Step;
    if events != [] {
      BuySideStaysKnown(h, events[0]);
      BuySideIsNeverSold(Step(h, events[0]), events[1..], price);
    }
  }

  /** The two sides are in states from which a ticker can cancel the buy. */
  predicate Cancellable(h: Hp)
  {
    (h.buy.side == New && SellState(h) == New && h.buy.order.Some? &&
     (h.buy.order.value.status == StNew || h.buy.order.value.status == StPartial)) ||
    (h.buy.side == PartiallyBought && (SellState(h) == New || SellState(h) == PartiallySold))
  }

  /** A ticker ends BUYING exactly when the cancel price is reached and the sides allow it. */
  lemma TickerEndsBuyingIff(h: Hp, symbol: string, price: real, reply: string, feed: real)
    requires h.running && h.state == Buying && BuySideKnown(h)
    ensures Step(h, Ticker(symbol, price, reply, feed)).state != Buying <==>
      price >= h.buy.cancelPrice && Cancellable(h)
  {
    hide RemainingBuy, CancelledBuy;
  }

  /** And then, and only then, the live order is off the exchange. */
  lemma LiveBuyIsCancelledIff(h: Hp, symbol: string, price: real, reply: string, feed: real)
    requires h.running && OneOpen(h) && h.open.buys != {} && BuySideKnown(h)
    ensures Step(h, Ticker(symbol, price, reply, feed)).open.buys == {} <==>
      price >= h.buy.cancelPrice && Cancellable(h)
  {
    hide CancelUnfilledBuy, CancelPartBought;
    CancelledBuyIsClosed(h, New);
    CancelledBuyIsClosed(h, PartiallyBought);
    CancelledBuyIsClosed(h, PartSoldPartBought);
    CancelledBuyIsClosed(h, SoldPartBought);
  }

  /** A buy sent again from SOLD_PART_BOUGHT is outside them: its sale is SOLD. */
  lemma ResendFromSoldIsNotCancellable(h: Hp, symbol: string, price: real, reply: string, feed: real)
    requires h.running && h.state == SoldPartBought && h.buy.order.Some? && CanResendBuy(h, Sold, price)
    ensures var g := Step(h, Ticker(symbol, price, reply, feed));
      g.running && g.state == Buying && g.buy.side == PartiallyBought && SellState(g) == Sold && !Cancellable(g)
  {
    hide Current, RemainingBuy, BuySendPrice, BuyCancelPrice;
  }

  /** So a buy order sent again after the sale completed cannot be cancelled by any price. */
  lemma {:induction false} ResentBuyOfSoldPositionStays(h: Hp, tickers: seq<Event>)
    requires h.state == Buying && h.buy.side == PartiallyBought && SellState(h) == Sold && OnlyTickers(tickers)
    ensures Run(h, tickers) == h
    decreases tickers
  {
    if tickers != [] {
      assert tickers[0] in tickers;
      assert Step(h, tickers[0]) == h;
      ResentBuyOfSoldPositionStays(h, tickers[1..]);
    }
  }

  // ----- Cancelling a sale -----

  /** The two sides are in states from which a ticker can cancel the sale. */
  predicate SaleCancellable(h: Hp)
  {
    (h.buy.side == PartiallyBought && SellState(h) == New && SellOrder(h).status == StNew) ||
    (h.buy.side == Bought && (SellState(h) == New || SellOrder(h).status != StNew)) ||
    (h.buy.side == PartiallyBought && SellState(h) == PartiallySold)
  }

  /** A ticker ends SELLING exactly when it is of the current leg's symbol, at or under the cancel
      price of the whole position, and the sides allow it. */
  lemma TickerEndsSellingIff(h: Hp, symbol: string, price: real, reply: string, feed: real)
    requires h.running && h.state == Selling
    ensures Step(h, Ticker(symbol, price, reply, feed)).state != Selling <==>
      SellPriceGone(h, symbol, price) && SaleCancellable(h)
  {
    hide SellPriceGone, Current, WithCurrent;
  }

  /** And then, and only then, the live order is off the exchange. */
  lemma LiveSaleIsCancelledIff(h: Hp, symbol: string, price: real, reply: string, feed: real)
    requires h.running && OneOpen(h) && h.open.sells != {}
    ensures Step(h, Ticker(symbol, price, reply, feed)).open.sells == {} <==>
      SellPriceGone(h, symbol, price) && SaleCancellable(h)
  {
    hide CancelUnfilledSell, CancelPartSold, SellPriceGone;
    CancelledSellIsClosed(h, PartiallySold);
    CancelledSellIsClosed(h, PartSoldPartBought);
  }

  /** The first of two legs is priced in another currency, but its cancel price is the whole
      position's: an untouched sale is cancelled by any ticker of the leg's symbol at or under
      that, however far above the leg's own price. */
  lemma FirstLegIsCancelledByItsTickerIff(h: Hp, price: real, reply: string, feed: real)
    requires h.running && h.state == Selling && h.buy.side == Bought && SellState(h) == New
    requires |h.sell.legs| == 2 && h.sell.cursor == OnLeg(0)
    ensures Step(h, Ticker(h.sell.legs[0].symbol.name, price, reply, feed)).state == PartiallyBought
         || Step(h, Ticker(h.sell.legs[0].symbol.name, price, reply, feed)).state == Bought
       <==> price <= SellCancelPrice(h.sell)
  {
    hide CancelSell, SellCancelPrice;
  }

  /** The hand-over leaves the second leg's side SELLING, with its order sent. */
  lemma HandOverLeavesSelling(h: Hp, reply: string, feed: real)
    requires h.running && h.state == Selling && h.buy.side == Bought && SellOrder(h).status == StFilled
    requires |h.sell.legs| == 2 && h.sell.cursor == OnLeg(0) && h.sell.legs[1].order.status != StFilled
    ensures var g := Step(h, Signal(true, reply, feed));
      g.running && g.state == Selling && g.sell.cursor == OnLeg(1) && g.buy.side == Bought &&
      SellState(g) == Selling && SellOrder(g).status == StNew && SellOrder(g).id == reply && reply in g.open.sells
  {
  }

  /** So a second-leg order that nothing has filled yet is cancelled by no ticker. */
  lemma {:induction false} SecondLegStays(h: Hp, tickers: seq<Event>)
    requires h.state == Selling && h.buy.side == Bought && SellState(h) == Selling && SellOrder(h).status == StNew
    requires OnlyTickers(tickers)
    ensures Run(h, tickers) == h
    decreases tickers
  {
    if tickers != [] {
      assert tickers[0] in tickers;
      assert Step(h, tickers[0]) == h;
      SecondLegStays(h, tickers[1..]);
    }
  }

  // ----- From a filled buy to BOUGHT -----

  /** Where a filled buy goes when its signal finds it BUYING, and where a ticker takes it first. */
  function FilledTo(sold: State): State
  {
    if sold == New then Bought else PartiallySold
  }

  function CancelledTo(sold: State): State
  {
    if sold == New then PartiallyBought else PartSoldPartBought
  }

  lemma {:induction false} FilledAndCancelledStays(h: Hp, tickers: seq<Event>)
    requires h.state == PartiallyBought || h.state == PartSoldPartBought
    requires h.buy.side == Bought && OnlyTickers(tickers)
    ensures Run(h, tickers) == h
    decreases tickers
  {
    if tickers != [] {
      assert tickers[0] in tickers;
      assert Step(h, tickers[0]) == h;
      FilledAndCancelledStays(h, tickers[1..]);
    }
  }

  /** Between the fill and the signal that all is filled, the first ticker at or above the cancel
      price takes the position to PARTIALLY_BOUGHT or PART_SOLD_PART_BOUGHT for good. */
  lemma {:induction false} WaitsForSignalIff(h: Hp, tickers: seq<Event>)
    requires h.running && h.state == Buying && BuyIsFilled(h.buy) && h.buy.side == PartiallyBought
    requires (SellState(h) == New || SellState(h) == PartiallySold) && OnlyTickers(tickers)
    ensures var g := Run(h, tickers);
      if forall t <- tickers :: t.price < h.buy.cancelPrice then g == h
      else g.running && g.state == CancelledTo(SellState(h)) && g.buy.side == Bought
    decreases tickers
  {
    if tickers != [] {
      var t := tickers[0];
      assert t in tickers;
      if t.price < h.buy.cancelPrice {
        assert Step(h, t) == h;
        WaitsForSignalIff(h, tickers[1..]);
        assert tickers == [t] + tickers[1..];
      } else {
        var g := Step(h, t);
        assert g.running && g.state == CancelledTo(SellState(h)) && g.buy.side == Bought;
        FilledAndCancelledStays(g, tickers[1..]);
      }
    }
  }

  lemma RunsOne(h: Hp, e: Event)
    ensures Run(h, [e]) == Step(h, e)
  {
    assert [e][1..] == [];
    assert Run(Step(h, e), []) == Step(h, e);
  }

  lemma FillReported(h: Hp, r: Event)
    requires h.running && h.state == Buying && r.Report? && r.limit && r.status == StFilled && IsBuyOrder(h, r.id)
    ensures var g := Step(h, r);
      g.running && g.state == Buying && BuyIsFilled(g.buy) && g.buy.side == PartiallyBought &&
      SellState(g) == (if SellState(h) == Sold then PartiallySold else SellState(h)) &&
      g.buy.cancelPrice == h.buy.cancelPrice
  {
  }

  lemma SignalSettlesBuy(h: Hp, reply: string, feed: real)
    requires h.running && h.state == Buying && BuyIsFilled(h.buy) && h.buy.side == PartiallyBought
    requires SellState(h) == New || SellState(h) == PartiallySold
    ensures var g := Step(h, Signal(true, reply, feed));
      g.running && g.state == FilledTo(SellState(h)) && g.buy.side == Bought
  {
  }

  lemma SignalRaises(h: Hp, reply: string, feed: real)
    requires h.running && (h.state == PartiallyBought || h.state == PartSoldPartBought)
    ensures var g := Step(h, Signal(true, reply, feed)); !g.running && g.state == h.state
  {
  }

  /** A filled buy reaches BOUGHT, or PARTIALLY_SOLD when something was sold before, exactly when no
      ticker handled between the report of the fill and the signal is at or above the cancel
      price; otherwise the signal stops the worker. */
  lemma FilledBuyReachesBoughtIff(h: Hp, r: Event, tickers: seq<Event>, reply: string, feed: real)
    requires h.running && h.state == Buying && OnlyTickers(tickers)
    requires SellState(h) == New || SellState(h) == PartiallySold || SellState(h) == Sold
    requires r.Report? && r.limit && r.status == StFilled && IsBuyOrder(h, r.id)
    ensures var g := Run(h, [r] + tickers + [Signal(true, reply, feed)]);
      if forall t <- tickers :: t.price < h.buy.cancelPrice
      then g.running && g.state == FilledTo(SellState(h)) && g.buy.side == Bought
      else !g.running && g.state == CancelledTo(SellState(h))
  {
    hide Run, Step, SellState, IsBuyOrder, BuyIsFilled;
    var signal := Signal(true, reply, feed);
    var h1 := Step(h, r);
    FillReported(h, r);
    WaitsForSignalIff(h1, tickers);
    var h2 := Run(h1, tickers);
    RunSplits(h, [r] + tickers, [signal]);
    RunSplits(h, [r], tickers);
    RunsOne(h, r);
    RunsOne(h2, signal);
    if forall t <- tickers :: t.price < h.buy.cancelPrice {
      SignalSettlesBuy(h2, reply, feed);
    } else {
      SignalRaises(h2, reply, feed);
    }
  }

  // ----- From a filled sale to SOLD -----

  predicate SellGoneAt(s: SellSide, t: Event)
    requires t.Ticker?
  {
    t.price <= SellCancelPrice(s) && t.symbol == Current(s).symbol.name
  }

  predicate SellDearAt(s: SellSide, t: Event)
    requires t.Ticker?
  {
    t.price >= SellSendPrice(s) && t.symbol == Current(s).symbol.name
  }

  /** Every ticker that moves a filled sale away from SELLING is followed at once by one that moves
      it back: the first is at or under the cancel price, the next at or above the send price. */
  predicate SaleSurvives(s: SellSide, tickers: seq<Event>)
    requires OnlyTickers(tickers)
    decreases |tickers|
  {
    if tickers == [] then true
    else if !SellGoneAt(s, tickers[0]) then
      SaleSurvives(s, tickers[1..])
    else
      |tickers| >= 2 && SellDearAt(s, tickers[1]) && SaleSurvives(s, tickers[2..])
  }

  /** A sale filled in full whose signal has not been handled. */
  predicate FilledSale(h: Hp)
  {
    h.running && h.state == Selling && h.buy.side == Bought && SellOrder(h).status == StFilled &&
    (SellState(h) == Sold || SellState(h) == PartiallySold)
  }

  /** The same sale, but for the state of the current leg's side. */
  ghost predicate SameSale(s: SellSide, t: SellSide)
  {
    t.target == s.target && t.cursor == s.cursor && |t.legs| == |s.legs| &&
    Current(t).symbol.name == Current(s).symbol.name && Current(t).direct == Current(s).direct
  }

  lemma WithSideIsSameSale(s: SellSide, leg: Leg)
    requires leg.symbol == Current(s).symbol && leg.direct == Current(s).direct
    ensures SameSale(s, WithCurrent(s, leg))
  {
  }

  lemma {:induction false} SurvivesAlike(s: SellSide, t: SellSide, tickers: seq<Event>)
    requires OnlyTickers(tickers) && SameSale(s, t)
    ensures SaleSurvives(s, tickers) == SaleSurvives(t, tickers)
    decreases |tickers|
  {
    hide Current;
    if tickers != [] {
      SurvivesAlike(s, t, tickers[1..]);
      if |tickers| >= 2 {
        SurvivesAlike(s, t, tickers[2..]);
      }
    }
  }

  lemma TickerOnFilledSale(h: Hp, t: Event)
    requires FilledSale(h) && t.Ticker?
    ensures var g := Step(h, t);
      if !SellGoneAt(h.sell, t) then g == h
      else g.running && g.state == PartiallySold && g.buy == h.buy && SellState(g) == PartiallySold &&
           SellOrder(g).status == StFilled && SameSale(h.sell, g.sell)
  {
    hide Current, WithCurrent, SellCancelPrice;
    var leg := Current(h.sell);
    CurrentIsReplaced(h.sell, leg);
    WithSideIsSameSale(h.sell, leg);
    var once := WithCurrent(h.sell, leg);
    CurrentIsReplaced(once, leg.(side := PartiallySold));
    WithSideIsSameSale(once, leg.(side := PartiallySold));
  }

  lemma TickerOnMovedSale(h: Hp, t: Event)
    requires h.running && h.state == PartiallySold && h.buy.side == Bought && SellState(h) == PartiallySold
    requires SellOrder(h).status == StFilled && t.Ticker?
    ensures var g := Step(h, t);
      if SellDearAt(h.sell, t) then FilledSale(g) && SameSale(h.sell, g.sell)
      else !g.running && g.state == PartiallySold
  {
    hide Current, WithCurrent, SellSendPrice;
    var leg := Current(h.sell);
    CurrentIsReplaced(h.sell, leg);
    WithSideIsSameSale(h.sell, leg);
    var once := WithCurrent(h.sell, leg);
    CurrentIsReplaced(once, leg.(side := PartiallySold));
    WithSideIsSameSale(once, leg.(side := PartiallySold));
  }

  lemma {:induction false} HaltedStays(h: Hp, tickers: seq<Event>)
    requires !h.running && OnlyTickers(tickers)
    ensures Run(h, tickers) == h
    decreases tickers
  {
    if tickers != [] {
      assert tickers[0] in tickers;
      HaltedStays(h, tickers[1..]);
    }
  }

  lemma SellDearAlike(s: SellSide, t: SellSide, e: Event)
    requires SameSale(s, t) && e.Ticker?
    ensures SellDearAt(s, e) == SellDearAt(t, e)
  {
  }

  lemma SaleIsBought(h: Hp)
    requires FilledSale(h)
    ensures h.buy.side == Bought
  {
  }

  /** What a stretch of tickers leaves of a filled sale. */
  lemma {:induction false} FilledSaleWaits(h: Hp, tickers: seq<Event>)
    requires FilledSale(h) && OnlyTickers(tickers)
    ensures var g := Run(h, tickers);
      if SaleSurvives(h.sell, tickers) then FilledSale(g) && SameSale(h.sell, g.sell) else g.state == PartiallySold
    decreases |tickers|
  {
    hide Run, Step, FilledSale, SellGoneAt, SellDearAt, Current;
    RunsFrom(h, tickers, 0);
    if tickers != [] {
      var t := tickers[0];
      assert t in tickers;
      TickerOnFilledSale(h, t);
      var h1 := Step(h, t);
      if !SellGoneAt(h.sell, t) {
        FilledSaleWaits(h1, tickers[1..]);
      } else if |tickers| == 1 {
        RunsFrom(h1, tickers, 1);
      } else {
        var u := tickers[1];
        assert u in tickers;
        RunsFrom(h1, tickers, 1);
        SellDearAlike(h.sell, h1.sell, u);
        SaleIsBought(h);
        TickerOnMovedSale(h1, u);
        var h2 := Step(h1, u);
        if SellDearAt(h.sell, u) {
          FilledSaleWaits(h2, tickers[2..]);
          SurvivesAlike(h.sell, h2.sell, tickers[2..]);
        } else {
          HaltedStays(h2, tickers[2..]);
        }
      }
    }
  }

  lemma SameSaleTransitive(s: SellSide, t: SellSide, u: SellSide)
    requires SameSale(s, t) && SameSale(t, u)
    ensures SameSale(s, u) && u.cursor == s.cursor && |u.legs| == |s.legs|
  {
  }

  lemma SaleFillReported(h: Hp, r: Event)
    requires h.running && h.state == Selling && h.buy.side == Bought
    requires r.Report? && r.limit && r.status == StFilled && SellOrder(h).id == r.id
    ensures FilledSale(Step(h, r)) && SameSale(h.sell, Step(h, r).sell)
  {
    hide Current, WithCurrent;
    var leg := FilledLeg(Current(h.sell), r);
    CurrentIsReplaced(h.sell, leg);
    WithSideIsSameSale(h.sell, leg);
  }

  lemma SignalClosesSale(h: Hp, reply: string, feed: real)
    requires FilledSale(h)
    ensures var g := Step(h, Signal(true, reply, feed));
      g.running && g.state == if |h.sell.legs| == 2 && h.sell.cursor == OnLeg(0) then Selling else Sold
  {
    hide SendSell;
    var h1 := SetSellState(h.(state := Sold), Sold);
    var h2 := h1.(sell := h1.sell.(cursor := OnLeg(1)), buy := h1.buy.(order := None));
    SellingLeavesBuy(SetSellState(h2, Selling), reply, feed);
  }

  lemma SignalStops(h: Hp, reply: string, feed: real)
    requires h.state == PartiallySold
    ensures var g := Step(h, Signal(true, reply, feed)); !g.running && g.state == PartiallySold
  {
  }

  /** A filled sale is closed by its signal, or handed over to the second leg, exactly when the
      tickers handled before the signal let it survive; otherwise the worker stops. */
  lemma FilledSaleClosesIff(h: Hp, r: Event, tickers: seq<Event>, reply: string, feed: real)
    requires h.running && h.state == Selling && h.buy.side == Bought && OnlyTickers(tickers)
    requires r.Report? && r.limit && r.status == StFilled && SellOrder(h).id == r.id
    ensures var g := Run(h, [r] + tickers + [Signal(true, reply, feed)]);
      if !SaleSurvives(h.sell, tickers) then !g.running && g.state == PartiallySold
      else g.running && g.state == if |h.sell.legs| == 2 && h.sell.cursor == OnLeg(0) then Selling else Sold
  {
    hide Run, SaleSurvives, SameSale;
    var signal := Signal(true, reply, feed);
    var h1 := Step(h, r);
    SaleFillReported(h, r);
    SurvivesAlike(h.sell, h1.sell, tickers);
    FilledSaleWaits(h1, tickers);
    var h2 := Run(h1, tickers);
    RunSplits(h, [r] + tickers, [signal]);
    RunSplits(h, [r], tickers);
    RunsOne(h, r);
    RunsOne(h2, signal);
    hide Step;
    if SaleSurvives(h.sell, tickers) {
      SameSaleTransitive(h.sell, h1.sell, h2.sell);
      SignalClosesSale(h2, reply, feed);
    } else {
      SignalStops(h2, reply, feed);
    }
  }

  /** While the buy is only partly filled, no ticker comes between a filled sale and its signal. */
  lemma {:induction false} PartBoughtSaleStays(h: Hp, tickers: seq<Event>)
    requires h.running && h.state == Selling && h.buy.side == PartiallyBought && SellState(h) == Sold
    requires SellOrder(h).status == StFilled && OnlyTickers(tickers)
    ensures Run(h, tickers) == h
    decreases tickers
  {
    if tickers != [] {
      assert tickers[0] in tickers;
      assert Step(h, tickers[0]) == h;
      PartBoughtSaleStays(h, tickers[1..]);
    }
  }

  // ----- Two legs -----

  /** Where rounding is exact, repriced legs together sell at the target price, and the second
      sells exactly what the first brings. */
  lemma TwoLegsSellAtTarget(s: SellSide, feed: real)
    requires |s.legs| == 2 && feed != 0.0
    requires forall x: real :: s.legs[0].symbol.adjustPrice(x) == x && s.legs[1].symbol.adjustPrice(x) == x
    requires forall x: real :: s.legs[0].symbol.adjustQuantity(x) == x && s.legs[1].symbol.adjustQuantity(x) == x
    requires forall x: real :: s.target.round8(x) == x
    ensures var t := Repriced(s, feed);
      Cost(t.legs[0].order.price, t.legs[1].order.price) == s.target.sellPrice &&
      Cost(t.legs[1].order.price, t.legs[1].order.quantity) == Cost(s.target.sellPrice, s.target.quantity)
  {
    var first := Ratio(s.target.sellPrice, feed);
    RatioTimes(s.target.sellPrice, feed);
    assert first * feed == s.target.sellPrice;
    var brought := Cost(first, s.target.quantity);
    assert feed * brought == (first * feed) * s.target.quantity;
  }
}
