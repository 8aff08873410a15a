/**
 Runs on which the HP machine does what it should not: a live buy order that no ticker can
 cancel any more, a cancel that gives back too little, a buy and a sale that stop the worker
 although they are filled in full, and an order that rounding lets be sent and cancelled at
 one price.
 */
module HpStuckBuy {
  import opened Options
  import opened Money
  import opened HpMachine
  import opened HpRuns
  import opened HpEffects

  function Market(): Symbol
  {
    Symbol("BTCUSDC", (x: real) => x, (x: real) => x)
  }

  function NewOrder(): Order
  {
    Order("", 100.0, 10.0, 1000.0, 0.0, StNew)
  }

  function NewLeg(): Leg
  {
    Leg(Order("", 120.0, 4.0, 480.0, 0.0, StNew), New, Market(), 4.0, 120.0, true)
  }

  /** A strategy about to buy at 100 with a trigger of 1 percent, and to sell at 120. */
  function Ready(): Hp
  {
    Hp(New, 1000.0,
       BuySide(BuyConfig(Market(), 100.0, 1.0, 1000.0), New, Some(NewOrder()), 0.0),
       SellSide(Target(Market(), 120.0, 4.0, (x: real) => x), [NewLeg()], OnLeg(0), NewLeg()),
       Exchange({}, {}), true)
  }

  function At(price: real, reply: string): Event
  {
    Ticker("BTCUSDC", price, reply, 0.0)
  }

  function ToStuck(): seq<Event>
  {
    [ At(100.0, "b1"),
      Report(true, false, StPartial, "b1", "BTCUSDC", 4.0, 4.0, 100.0),
      At(110.0, "-"),
      At(118.0, "s1"),
      Closes("s1"),
      Report(true, false, StFilled, "s1", "BTCUSDC", 4.0, 4.0, 120.0),
      Signal(true, "-", 0.0),
      At(100.0, "b2") ]
  }

  /** What the run looks like between its events. */
  ghost predicate Looks(h: Hp, state: State, side: State, order: Order, sold: State, sale: Order, open: Exchange)
  {
    h.running && h.state == state && h.buy.config == Ready().buy.config && h.buy.side == side &&
      h.buy.order == Some(order) &&
    h.sell == Ready().sell.(legs := [NewLeg().(side := sold, order := sale)]) && h.open == open
  }

  function PartBuy(id: string, status: Status): Order
  {
    Order(id, 100.0, 10.0, 600.0, 4.0, status)
  }

  function Sale(id: string, status: Status): Order
  {
    NewLeg().order.(id := id, status := status)
  }

  lemma Buys(h: Hp)
    requires h == Ready()
    ensures var g := Step(h, ToStuck()[0]);
      Looks(g, Buying, New, NewOrder().(id := "b1"), New, Sale("", StNew), Exchange({"b1"}, {})) &&
        g.buy.cancelPrice == 102.0
  {
    hide RemainingBuy;
    assert BuySendPrice(h.buy) == 101.0;
    assert Prepared(h.buy.config) == NewOrder() by { assert Ratio(1000.0, 100.0) == 10.0; }
    var b := h.buy.(order := Some(NewOrder()));
    assert BuyCancelPrice(b) == 102.0;
    assert OpenedBuy(b, "b1") == b.(cancelPrice := 102.0, order := Some(NewOrder().(id := "b1")));
  }

  lemma FillsPart(h: Hp)
    requires Looks(h, Buying, New, NewOrder().(id := "b1"), New, Sale("", StNew), Exchange({"b1"}, {}))
    ensures var g := Step(h, ToStuck()[1]);
      Looks(g, Buying, PartiallyBought, PartBuy("b1", StPartial), New, Sale("", StNew), Exchange({"b1"}, {})) &&
      g.buy.cancelPrice == h.buy.cancelPrice
  {
    assert Cost(100.0, 4.0) == 400.0;
    assert PartFilledBuy(h.buy, ToStuck()[1]) == h.buy.(side := PartiallyBought,
                                                        order := Some(PartBuy("b1", StPartial)));
  }

  lemma SellsPart(h: Hp)
    requires Looks(h, Buying, PartiallyBought, PartBuy("b1", StPartial), New, Sale("", StNew), Exchange({"b1"}, {}))
    requires h.buy.cancelPrice == 102.0
    ensures var g := Step(Step(h, ToStuck()[2]), ToStuck()[3]);
      Looks(g, Selling, PartiallyBought, PartBuy("b1", StCanceled), New, Sale("s1", StNew), Exchange({}, {"s1"}))
  {
    var h1 := Step(h, ToStuck()[2]);
    assert Looks(h1, PartiallyBought, PartiallyBought, PartBuy("b1", StCanceled), New, Sale("", StNew),
                 Exchange({}, {})) by {
      assert {"b1"} - {"b1"} == {};
    }
    assert BuySendPrice(h1.buy) == 101.0 && SellSendPrice(h1.sell) == 115.2;
    assert [NewLeg()][0 := Current(h1.sell)] == [NewLeg()];
    assert [NewLeg()][0 := NewLeg().(order := Sale("s1", StNew))] == [NewLeg().(order := Sale("s1", StNew))];
  }

  lemma Sells(h: Hp)
    requires Looks(h, Selling, PartiallyBought, PartBuy("b1", StCanceled), New, Sale("s1", StNew), Exchange({}, {"s1"}))
    ensures Step(h, ToStuck()[4]).open == Exchange({}, {})
    ensures var g := Step(Step(Step(h, ToStuck()[4]), ToStuck()[5]), ToStuck()[6]);
      exists sale :: Looks(g, SoldPartBought, PartiallyBought, PartBuy("b1", StCanceled), Sold, sale, Exchange({}, {}))
  {
    var h1 := Step(h, ToStuck()[4]);
    assert {"s1"} - {"s1"} == {};
    assert Looks(h1, Selling, PartiallyBought, PartBuy("b1", StCanceled), New, Sale("s1", StNew), Exchange({}, {}));
    var sale := Sale("s1", StFilled).(realized := 4.0);
    var h2 := Step(h1, ToStuck()[5]);
    assert h2.sell.legs == [NewLeg().(side := Sold, order := sale)];
    var h3 := Step(h2, ToStuck()[6]);
    assert h3.sell.legs == [NewLeg().(side := Sold, order := sale)];
    assert Looks(h3, SoldPartBought, PartiallyBought, PartBuy("b1", StCanceled), Sold, sale, Exchange({}, {}));
  }

  /** The last ticker sends the rest of the buy again, into a state no price can cancel it from. */
  lemma SendsRestAgain(h: Hp, sale: Order)
    requires Looks(h, SoldPartBought, PartiallyBought, PartBuy("b1", StCanceled), Sold, sale, Exchange({}, {}))
    ensures var g := Step(h, ToStuck()[7]);
      g.open == Exchange({"b2"}, {}) && g.running && g.state == Buying && g.buy.side == PartiallyBought &&
        SellState(g) == Sold &&
      g.buy.cancelPrice == 102.0
  {
    assert BuySendPrice(h.buy) == 101.0;
    ResendFromSoldIsNotCancellable(h, "BTCUSDC", 100.0, "b2", 0.0);
    assert {} + {"b2"} == {"b2"};
  }

  /** Only the fill of the sale claims that an order is over, and by then it is. */
  lemma EventsAreTruthful(h0: Hp, h1: Hp, h2: Hp, h3: Hp, h4: Hp, h5: Hp, h6: Hp, h7: Hp)
    requires h5.open == Exchange({}, {})
    ensures var es := ToStuck();
      Truthful(h0, es[0]) && Truthful(h1, es[1]) && Truthful(h2, es[2]) && Truthful(h3, es[3]) && Truthful(h4, es[4]) &&
      Truthful(h5, es[5]) && Truthful(h6, es[6]) && Truthful(h7, es[7])
  {
  }

  /** The run is truthful, starts with nothing open, and ends with an open buy order that stays
      as it is on every further run of tickers, at whatever prices. */
  lemma StuckBuyIsReached(tickers: seq<Event>)
    requires OnlyTickers(tickers)
    ensures OneOpen(Ready()) && Unfilled(Ready()) && TruthfulRun(Ready(), ToStuck())
    ensures var g := Run(Ready(), ToStuck());
      g.running && g.state == Buying && g.open == Exchange({"b2"}, {}) && Run(g, tickers) == g
  {
    hide Step, Run, TruthfulRun, Looks, Truthful;
    var es := ToStuck();
    var h0 := Ready();
    Buys(h0);
    var h1 := Step(h0, es[0]);
    FillsPart(h1);
    var h2 := Step(h1, es[1]);
    SellsPart(h2);
    var h3 := Step(h2, es[2]);
    var h4 := Step(h3, es[3]);
    Sells(h4);
    var h5 := Step(h4, es[4]);
    var h6 := Step(h5, es[5]);
    var h7 := Step(h6, es[6]);
    var sale :| Looks(h7, SoldPartBought, PartiallyBought, PartBuy("b1", StCanceled), Sold, sale, Exchange({}, {}));
    SendsRestAgain(h7, sale);
    var h8 := Step(h7, es[7]);
    EventsAreTruthful(h0, h1, h2, h3, h4, h5, h6, h7);
    RunsFrom(h0, es, 0);
    RunsFrom(h1, es, 1);
    RunsFrom(h2, es, 2);
    RunsFrom(h3, es, 3);
    RunsFrom(h4, es, 4);
    RunsFrom(h5, es, 5);
    RunsFrom(h6, es, 6);
    RunsFrom(h7, es, 7);
    RunsFrom(h8, es, 8);
    ResentBuyOfSoldPositionStays(h8, tickers);
  }

  // ----- A cancel that gives back too little -----

  lemma BuysForAll()
    ensures Step(Ready(), ToStuck()[0]).balance == 0.0
  {
    var h := Ready();
    assert BuySendPrice(h.buy) == 101.0 && RemainingBuy(h.buy) == 1000.0;
    hide BuySendPrice, RemainingBuy, BuyCancelPrice, Prepared;
  }

  lemma PartKeepsBalance(h: Hp)
    ensures Step(h, ToStuck()[1]).balance == h.balance
  {
  }

  lemma CancelsThePart(h: Hp)
    requires Looks(h, Buying, PartiallyBought, PartBuy("b1", StPartial), New, Sale("", StNew), Exchange({"b1"}, {}))
    requires h.buy.cancelPrice == 102.0 && h.balance == 0.0
    ensures var g := Step(h, ToStuck()[2]);
      g.state == PartiallyBought && g.balance == 360.0 && g.buy.order == Some(PartBuy("b1", StCanceled)) &&
      g.open == Exchange({}, {})
  {
    assert OrderLeft(PartBuy("b1", StPartial)) == 360.0 by { assert Ratio(4.0, 10.0) == 0.4; }
    assert {"b1"} - {"b1"} == {};
  }

  /** The third event of the first run cancels an order for 1000 of which 400 are spent, and gives back
      360 of the other 600. */
  lemma CancelReturnsTooLittle()
    ensures TruthfulRun(Ready(), ToStuck()[..3])
    ensures var g := Run(Ready(), ToStuck()[..3]);
      g.state == PartiallyBought && g.balance == 360.0 && g.buy.order.Some? &&
      g.buy.order.value.quantityStable == 600.0 && g.open == Exchange({}, {})
  {
    hide Run, Step, TruthfulRun, Looks;
    var es := ToStuck()[..3];
    var h0 := Ready();
    BuysForAll();
    Buys(h0);
    var h1 := Step(h0, es[0]);
    FillsPart(h1);
    PartKeepsBalance(h1);
    var h2 := Step(h1, es[1]);
    CancelsThePart(h2);
    RunsFrom(h0, es, 0);
    RunsFrom(h1, es, 1);
    RunsFrom(h2, es, 2);
    RunsFrom(Step(h2, es[2]), es, 3);
  }

  // ----- A filled buy that is not BOUGHT -----

  /** The whole buy fills at its limit, and a ticker at the cancel price is handled before the
      signal that all is filled. */
  function ToStopped(): seq<Event>
  {
    [ At(100.0, "b1"),
      Closes("b1"),
      Report(true, false, StFilled, "b1", "BTCUSDC", 10.0, 10.0, 100.0),
      At(102.0, "-"),
      Signal(true, "-", 0.0) ]
  }

  lemma ClosesTheBuy(h: Hp)
    requires Looks(h, Buying, New, NewOrder().(id := "b1"), New, Sale("", StNew), Exchange({"b1"}, {}))
    ensures var g := Step(h, ToStopped()[1]);
      Looks(g, Buying, New, NewOrder().(id := "b1"), New, Sale("", StNew), Exchange({}, {})) &&
      g.buy.cancelPrice == h.buy.cancelPrice
  {
    assert {"b1"} - {"b1"} == {};
  }

  lemma StopsOnSignal(h: Hp)
    requires Looks(h, Buying, New, NewOrder().(id := "b1"), New, Sale("", StNew), Exchange({}, {}))
    requires h.buy.cancelPrice == 102.0
    ensures var g := Run(h, ToStopped()[2..]); !g.running && g.state == PartiallyBought
  {
    var es := ToStopped();
    var tickers := [es[3]];
    assert es[2..] == [es[2]] + tickers + [Signal(true, "-", 0.0)];
    assert es[3] in tickers && es[3].price >= h.buy.cancelPrice;
    FilledBuyReachesBoughtIff(h, es[2], tickers, "-", 0.0);
  }

  /** By the time the fill is reported the order is off the exchange. */
  lemma StaysTruthful(h: Hp)
    requires h.open == Exchange({}, {})
    ensures TruthfulRun(h, ToStopped()[2..])
  {
    hide Step, Run, TruthfulRun;
    var es := ToStopped();
    var h1 := Step(h, es[2]);
    var h2 := Step(h1, es[3]);
    RunsFrom(h, es, 2);
    RunsFrom(h1, es, 3);
    RunsFrom(h2, es, 4);
    RunsFrom(Step(h2, es[4]), es, 5);
  }

  /** The run is truthful, and ends with the worker stopped on a buy that was filled in full. */
  lemma FilledBuyIsStopped()
    ensures TruthfulRun(Ready(), ToStopped())
    ensures var g := Run(Ready(), ToStopped()); !g.running && g.state == PartiallyBought
  {
    hide Run, TruthfulRun;
    var es := ToStopped();
    var h0 := Ready();
    Buys(h0);
    var h1 := Step(h0, es[0]);
    ClosesTheBuy(h1);
    var h2 := Step(h1, es[1]);
    StopsOnSignal(h2);
    StaysTruthful(h2);
    RunsFrom(h0, es, 0);
    RunsFrom(h1, es, 1);
  }

  // ----- A filled sale that is not SOLD -----

  /** Buy and sale both fill at their limits, and a ticker at the cancel price of the sale, 110.4,
      is handled before the signal that the sale is filled. */
  function ToUnsold(): seq<Event>
  {
    [ At(100.0, "b1"),
      Closes("b1"),
      Report(true, false, StFilled, "b1", "BTCUSDC", 10.0, 10.0, 100.0),
      Signal(true, "-", 0.0),
      At(118.0, "s1"),
      Closes("s1"),
      Report(true, false, StFilled, "s1", "BTCUSDC", 4.0, 4.0, 120.0),
      At(110.4, "-"),
      Signal(true, "-", 0.0) ]
  }

  /** The buy is BOUGHT, and the sale `sale` is as it was set up or sent. */
  ghost predicate Holds(h: Hp, state: State, sale: Order, open: Exchange)
  {
    exists order :: Looks(h, state, Bought, order, New, sale, open)
  }

  lemma BuysAll(h: Hp)
    requires Looks(h, Buying, New, NewOrder().(id := "b1"), New, Sale("", StNew), Exchange({}, {}))
    ensures Holds(Step(Step(h, ToUnsold()[2]), ToUnsold()[3]), Bought, Sale("", StNew), Exchange({}, {}))
    ensures h.open == Exchange({}, {})
  {
    var h1 := Step(h, ToUnsold()[2]);
    var order := h1.buy.order.value;
    assert Looks(h1, Buying, PartiallyBought, order, New, Sale("", StNew), Exchange({}, {}));
    var h2 := Step(h1, ToUnsold()[3]);
    assert Looks(h2, Bought, Bought, order, New, Sale("", StNew), Exchange({}, {}));
  }

  lemma SendsSale(h: Hp)
    requires Holds(h, Bought, Sale("", StNew), Exchange({}, {}))
    ensures var g := Step(Step(h, ToUnsold()[4]), ToUnsold()[5]);
      Holds(g, Selling, Sale("s1", StNew), Exchange({}, {})) && g.open == Exchange({}, {})
  {
    var order :| Looks(h, Bought, Bought, order, New, Sale("", StNew), Exchange({}, {}));
    assert SellSendPrice(h.sell) == 115.2;
    assert [NewLeg()][0 := Current(h.sell)] == [NewLeg()];
    assert [NewLeg()][0 := NewLeg().(order := Sale("s1", StNew))] == [NewLeg().(order := Sale("s1", StNew))];
    var h1 := Step(h, ToUnsold()[4]);
    assert Looks(h1, Selling, Bought, order, New, Sale("s1", StNew), Exchange({}, {"s1"}));
    assert {"s1"} - {"s1"} == {};
    assert Looks(Step(h1, ToUnsold()[5]), Selling, Bought, order, New, Sale("s1", StNew), Exchange({}, {}));
  }

  lemma StopsUnsold(h: Hp)
    requires Holds(h, Selling, Sale("s1", StNew), Exchange({}, {}))
    ensures var g := Run(h, ToUnsold()[6..]); !g.running && g.state == PartiallySold
  {
    hide Run, Step;
    var es := ToUnsold();
    var tickers := [es[7]];
    assert es[6..] == [es[6]] + tickers + [Signal(true, "-", 0.0)];
    assert SellCancelPrice(h.sell) == 110.4;
    assert SellGoneAt(h.sell, tickers[0]) && !SaleSurvives(h.sell, tickers);
    FilledSaleClosesIff(h, es[6], tickers, "-", 0.0);
  }

  /** Only the two fills claim that an order is over, and by then it is. */
  lemma UnsoldIsTruthful(h2: Hp, h6: Hp)
    requires h2.open == h6.open == Exchange({}, {})
    ensures Truthful(h2, ToUnsold()[2]) && TruthfulRun(h6, ToUnsold()[6..])
  {
    hide Step, Run, TruthfulRun;
    var es := ToUnsold();
    var h7 := Step(h6, es[6]);
    var h8 := Step(h7, es[7]);
    RunsFrom(h6, es, 6);
    RunsFrom(h7, es, 7);
    RunsFrom(h8, es, 8);
    RunsFrom(Step(h8, es[8]), es, 9);
  }

  /** The run is truthful, and ends with the worker stopped on a sale that was filled in full. */
  lemma FilledSaleIsStopped()
    ensures TruthfulRun(Ready(), ToUnsold())
    ensures var g := Run(Ready(), ToUnsold()); !g.running && g.state == PartiallySold
  {
    hide Step, Run, TruthfulRun, Looks;
    var es := ToUnsold();
    var h0 := Ready();
    Buys(h0);
    var h1 := Step(h0, es[0]);
    ClosesTheBuy(h1);
    var h2 := Step(h1, es[1]);
    BuysAll(h2);
    var h3 := Step(h2, es[2]);
    var h4 := Step(h3, es[3]);
    SendsSale(h4);
    var h5 := Step(h4, es[4]);
    var h6 := Step(h5, es[5]);
    StopsUnsold(h6);
    UnsoldIsTruthful(h2, h6);
    RunsFrom(h0, es, 0);
    RunsFrom(h1, es, 1);
    RunsFrom(h2, es, 2);
    RunsFrom(h3, es, 3);
    RunsFrom(h4, es, 4);
    RunsFrom(h5, es, 5);
  }

  // ----- A buy cancelled by the price it was sent at -----

  /** Prices in whole units, and a trigger of a tenth of a percent: both bands round to 100. */
  function Coarse(): Hp
  {
    var whole := Symbol("BTCUSDC", (x: real) => x.Floor as real, (x: real) => x);
    Ready().(buy := BuySide(BuyConfig(whole, 100.0, 0.1, 1000.0), New, Some(NewOrder()), 0.0))
  }

  lemma BandsMeet()
    ensures BuyBand(Coarse().buy.config, 0.1) == 100.0 == BuyBand(Coarse().buy.config, 0.2)
  {
    var c := Coarse().buy.config;
    assert c.symbol.adjustPrice(100.0) == 100.0;
    assert 100.0 * (1.0 + 1.0 * 0.1 / 100.0) == 100.1 && 100.1.Floor == 100;
    assert 100.0 * (1.0 + 2.0 * 0.1 / 100.0) == 100.2 && 100.2.Floor == 100;
  }

  lemma CoarseSendPrice()
    ensures BuySendPrice(Coarse().buy) == 100.0
  {
    assert 100.0 * (1.0 + 1.0 * 0.1 / 100.0) == 100.1 && 100.1.Floor == 100;
  }

  lemma PreparedIsNew(c: BuyConfig)
    ensures Prepared(c).status == StNew
  {
  }

  lemma SendsCoarse()
    ensures Step(Coarse(), At(100.0, "b1")).open == Exchange({"b1"}, {})
  {
    hide RemainingBuy, BuyCancelPrice, BuyBand, Band, Prepared;
    var h := Coarse();
    assert BuySendPrice(h.buy) == 100.0 by { CoarseSendPrice(); }
    assert Prepared(h.buy.config).status == StNew by { PreparedIsNew(h.buy.config); }
    assert {} + {"b1"} == {"b1"};
  }

  lemma RoundingCancelsAtOnce()
    ensures ReadyToBuy(Coarse()) && OneOpen(Coarse())
    ensures var sent := Step(Coarse(), At(100.0, "b1"));
      sent.state == Buying && sent.open == Exchange({"b1"}, {}) && Step(sent, At(100.0, "b1")).state == New
  {
    hide Step, BuyBand;
    BandsMeet();
    SendIsCancelledAtOnceIff(Coarse(), "BTCUSDC", 100.0, "b1", 0.0);
    SendsCoarse();
  }
}
