/**
 What a sale books: the quantity the position holds when the fill arrives, which is the
 quantity of the sell order exactly when no further level filled in between. A run of four
 events leads to a sale that books twice what was ordered, and its second event, a fill of
 quantity 1, already leaves the locked budget unaccounted for.
 */
module BuyDipStaleSale {
  import opened Options
  import opened Money
  import opened Budgets
  import opened BuyDipPositions
  import opened BuyDipEngine
  import opened BuyDipInvariants
  import opened BuyDipSteps
  import opened BuyDipEvents
  import opened BuyDipRuns

  /** A sell order is placed for all the position holds. */
  lemma SaleIsPlacedForAll(s: Engine, id: PositionId)
    requires id in s.positions && PlaceSellOrder(s, id, SellOf(id)) != s
    ensures var q := PlaceSellOrder(s, id, SellOf(id)).positions[id];
            q.sellOrder.Some? && q.sellOrder.value.quantity == q.totalQuantity == s.positions[id].totalQuantity
  {
  }

  lemma ReleaseKeepsHoldings(s: Engine, id: PositionId)
    requires id in s.positions
    ensures var t := ReleasePending(s, id);
            && id in t.positions && t.positions[id].sellOrder == s.positions[id].sellOrder
            && t.positions[id].totalQuantity == s.positions[id].totalQuantity
  {
  }

  lemma ClosesWithHoldings(s: Engine, id: PositionId, price: real)
    requires id in s.positions && s.positions[id].sellOrder.Some? && s.positions[id].sellOrder.value.id == SellOf(id)
    ensures var u := CloseWithSale(s, SellOf(id), id, price);
            && id in u.positions && u.positions[id].state == Completed && u.positions[id].sellOrder.Some?
            && u.positions[id].sellOrder.value.quantity == s.positions[id].sellOrder.value.quantity
            && u.positions[id].sellOrder.value.filledQuantity == s.positions[id].totalQuantity
  {
    hide Release;
  }

  /** The sale in the order map is the position's own. */
  lemma SaleIsLive(s: Engine, id: PositionId)
    requires Inv(s) && SellOf(id) in s.orderOwner
    ensures id in s.positions && s.orderOwner[SellOf(id)] == id
    ensures s.positions[id].sellOrder.Some? && s.positions[id].sellOrder.value.id == SellOf(id)
  {
    var p := s.positions[id];
    assert Live(p, SellOf(id)) && PositionOk(s.config, id, p);
    if PendingOrder(p).Some? {
      assert BuyOk(s.config, id, p, PendingOrder(p).value);
    }
  }

  /** A sale books what the position holds when it is filled. */
  lemma SaleBooksHoldings(s: Engine, id: PositionId, price: real)
    requires Inv(s) && SellOf(id) in s.orderOwner
    ensures id in s.positions && s.positions[id].sellOrder.Some?
    ensures var u := SellFilled(s, SellOf(id), price);
            && id in u.positions && u.positions[id].state == Completed && u.positions[id].sellOrder.Some?
            && u.positions[id].sellOrder.value.quantity == s.positions[id].sellOrder.value.quantity
            && u.positions[id].sellOrder.value.filledQuantity == s.positions[id].totalQuantity
  {
    hide Inv, ReleasePending, CloseWithSale;
    SaleIsLive(s, id);
    ReleaseKeepsHoldings(s, id);
    ClosesWithHoldings(ReleasePending(s, id), id, price);
  }

  /** From a moment at which the sell order is for all the position holds to the moment it is
      filled: the booked quantity is the order's exactly when no buy filled in between. */
  lemma BookedQuantityIff(c: Config, budget: real, percentage: real, first: seq<Event>, second: seq<Event>,
                          id: PositionId, price: real)
    requires GoodStart(c, budget, percentage) && AllowedRun(Start(c, budget, percentage), first + second)
    requires var s := Run(Start(c, budget, percentage), first);
             && id in s.positions && s.positions[id].sellOrder.Some?
             && s.positions[id].sellOrder.value.quantity == s.positions[id].totalQuantity
    requires var s := Run(Start(c, budget, percentage), first);
             var t := Run(Start(c, budget, percentage), first + second);
             id in t.positions && t.positions[id].sellOrder == s.positions[id].sellOrder && SellOf(id) in t.orderOwner
    ensures var s := Run(Start(c, budget, percentage), first);
            var t := Run(Start(c, budget, percentage), first + second);
            var u := SellFilled(t, SellOf(id), price);
            && id in u.positions && u.positions[id].sellOrder.Some?
            && (u.positions[id].sellOrder.value.filledQuantity == u.positions[id].sellOrder.value.quantity
                <==> FilledCount(t.positions[id].buyOrders) == FilledCount(s.positions[id].buyOrders))
  {
    hide Inv, OneOpen, KeepsLedger, Run, AllowedRun, SellFilled, Equity, Drift, AllBacked;
    var start := Start(c, budget, percentage);
    RunAppend(start, first, second);
    RunFromStart(c, budget, percentage, first);
    RunFromStart(c, budget, percentage, first + second);
    var s, t := Run(start, first), Run(start, first + second);
    RunKeeps(s, second);
    InvFacts(s, id);
    InvFacts(t, id);
    assert Evolves(s.positions[id], t.positions[id]);
    SaleBooksHoldings(t, id, price);
  }

  // ----- A sale that books too much -----

  const TWO_LEVELS: Config := Config([10.0, 20.0], 1.0, 0.0, 1.0, 5.0)

  const ID: PositionId := TopId("BTCUSDC", 1)

  function BeforeSale(): seq<Event>
  {
    [ OnCandle("BTCUSDC", Candle(100.0, Some(1)), true, 0.0),
      OnBuyFill(Dca(ID, 0), 90.0, 1.0, 0.0),
      OnTicker("BTCUSDC", 100.0),
      OnBuyFill(Dca(ID, 1), 80.0, 1.0, 0.0) ]
  }

  lemma Opens(s: Engine)
    requires s == Start(TWO_LEVELS, 1000.0, 10.0)
    ensures var t := Step(s, BeforeSale()[0]);
      && t.config == TWO_LEVELS && t.symbolIds == map["BTCUSDC" := [ID]] && t.positions.Keys == {ID}
      && t.orderOwner == map[Dca(ID, 0) := ID] && t.budget == Budget(900.0, 100.0, 10.0, 10.0)
      && var p := t.positions[ID];
         && p == Fresh("BTCUSDC").(state := PotentialTop, topPrice := Some(100.0), buyOrders := p.buyOrders,
                                   pending := Some(0))
         && |p.buyOrders| == 1 && p.buyOrders[0].id == Dca(ID, 0)
         && p.buyOrders[0].price == 90.0 && p.buyOrders[0].quantity == Ratio(100.0, 90.0)
  {
    var c := Candle(100.0, Some(1));
    assert OrderSize(s.budget) == Some(100.0);
    assert NewHigh(s, "BTCUSDC", c, 0.0) == s;
    assert RisingDecision(s, "BTCUSDC", c) == OpenNew(ID);
    var s1 := OpenAtTop(AddPosition(s, ID, Fresh("BTCUSDC")), ID, 100.0);
    assert s1.symbolIds == map["BTCUSDC" := [] + [ID]] && [] + [ID] == [ID];
    assert s1.positions.Keys == {ID} && Ids(s1, "BTCUSDC") == [ID];
    assert [ID][1..] == [];
    assert ScheduleAll(s1, [ID], c, 0.0) == ScheduleOne(s1, ID, c, 0.0) == s1;
    var p := s1.positions[ID];
    var s2 := Put(s1, ID, p.(justInvalidated := false));
    assert s2.positions == s1.positions;
    assert ClearFlags(s1, [ID]) == ClearFlags(s2, []) == s2;
    assert InState(s1.positions, [ID], PotentialTop) == [ID];
    assert Rising(s, "BTCUSDC", c) == s1;
    assert CandleClosed(s, "BTCUSDC", c, true, 0.0) == s1;
  }

  /** The position is active at level `level` under a top of 100. */
  predicate Holding(s: Engine, level: nat)
  {
    && s.config == TWO_LEVELS && s.symbolIds == map["BTCUSDC" := [ID, BaseId("BTCUSDC")]]
    && s.positions.Keys == {ID, BaseId("BTCUSDC")} && s.positions[BaseId("BTCUSDC")].state == Watching
    && var p := s.positions[ID];
       && p.symbol == "BTCUSDC" && p.state == Active && p.nextLevel == level && p.totalQuantity == level as real
       && p.topPrice == p.confirmedTop == Some(100.0)
  }

  lemma FirstFill(s: Engine, p: Position)
    requires s.config == TWO_LEVELS && s.symbolIds == map["BTCUSDC" := [ID]] && s.positions == map[ID := p]
    requires s.orderOwner == map[Dca(ID, 0) := ID] && s.budget == Budget(900.0, 100.0, 10.0, 10.0)
    requires p == Fresh("BTCUSDC").(state := PotentialTop, topPrice := Some(100.0), buyOrders := p.buyOrders,
                                    pending := Some(0))
    requires |p.buyOrders| == 1 && p.buyOrders[0].id == Dca(ID, 0)
    ensures var t := Step(s, BeforeSale()[1]);
      && Holding(t, 1) && t.orderOwner == map[Dca(ID, 1) := ID] && t.positions[ID].sellOrder == None
      && t.positions[ID].pending == Some(1) && |t.positions[ID].buyOrders| == 2
      && t.positions[ID].buyOrders[0].id == Dca(ID, 0) && t.positions[ID].buyOrders[1].id == Dca(ID, 1)
  {
    var order := Dca(ID, 0);
    var q := Fill(p, order, 90.0, 1.0).value;
    var s1 := BookFill(s, order, ID, q);
    assert s1.orderOwner == map[] && s1.positions == map[ID := q];
    assert [ID][1..] == [] && InState(s1.positions, [ID], Watching) == [];
    var s2 := AddPosition(s1, BaseId("BTCUSDC"), Fresh("BTCUSDC"));
    assert CreatePlaceholder(s1, "BTCUSDC", 0.0) == s2;
    assert [ID] + [BaseId("BTCUSDC")] == [ID, BaseId("BTCUSDC")];
    assert OrderSize(s2.budget) == Some(90.0);
    var r := PlaceNextLevel(s2, ID).positions[ID];
    assert r.buyOrders == q.buyOrders + [r.buyOrders[1]];
  }

  lemma PlacesSale(s: Engine)
    requires Holding(s, 1) && s.positions[ID].sellOrder == None
    ensures var t := Step(s, BeforeSale()[2]);
      && Holding(t, 1) && t.orderOwner == s.orderOwner[SellOf(ID) := ID]
      && t.positions[ID] == PlaceSell(s.positions[ID], SellOf(ID), 100.0, 1.0)
  {
    var other := BaseId("BTCUSDC");
    assert [ID, other][1..] == [other] && [other][1..] == [] && [ID][1..] == [];
    assert InState(s.positions, [other], Active) == [];
    assert InState(s.positions, [ID, other], Active) == [ID];
    assert DistanceFromTop(100.0, 100.0) == 0.0;
    assert Ids(s, "BTCUSDC") == [ID, other];
    assert ManageSells(s, [ID], 100.0) == ManageSells(ManageSell(s, ID, 100.0), [], 100.0) == ManageSell(s, ID, 100.0);
    assert Ticker(s, "BTCUSDC", 100.0) == ManageSells(s, [ID], 100.0);
  }

  lemma SecondFill(s: Engine)
    requires Holding(s, 1) && s.orderOwner == map[Dca(ID, 1) := ID, SellOf(ID) := ID]
    requires s.positions[ID].pending == Some(1)
    requires |s.positions[ID].buyOrders| == 2
    requires s.positions[ID].buyOrders[0].id == Dca(ID, 0) && s.positions[ID].buyOrders[1].id == Dca(ID, 1)
    ensures var t := Step(s, BeforeSale()[3]);
      && Holding(t, 2) && t.orderOwner == map[SellOf(ID) := ID]
      && t.positions[ID].sellOrder == s.positions[ID].sellOrder
      && t.positions[ID].pending == None
  {
    var p := s.positions[ID];
    assert p.buyOrders[1..][0] == p.buyOrders[1];
    assert FindOrder(p.buyOrders, Dca(ID, 1)) == Some(1);
    var q := Fill(p, Dca(ID, 1), 80.0, 1.0).value;
    var s1 := BookFill(s, Dca(ID, 1), ID, q);
    assert s1.orderOwner == map[SellOf(ID) := ID];
    assert PlaceNextLevel(s1, ID) == s1;
  }

  lemma EventsAreAllowed(s0: Engine, s1: Engine, s2: Engine, s3: Engine)
    requires s1.positions.Keys == {ID} && Holding(s3, 1)
    ensures var es := BeforeSale();
      Allowed(s0, es[0]) && Allowed(s1, es[1]) && Allowed(s2, es[2]) && Allowed(s3, es[3])
  {
    assert StampedId("BTCUSDC", Milliseconds(0.0)) !in {ID, BaseId("BTCUSDC")};
  }

  lemma SellsTwo(s: Engine)
    requires Holding(s, 2) && s.orderOwner == map[SellOf(ID) := ID] && s.positions[ID].pending == None
    requires s.positions[ID].sellOrder == Some(OrderInfo(SellOf(ID), 100.0, 1.0, -1, New, 0.0, None))
    ensures var u := SellFilled(s, SellOf(ID), 100.0);
      && ID in u.positions && u.positions[ID].state == Completed && u.positions[ID].sellOrder.Some?
      && u.positions[ID].sellOrder.value.quantity == 1.0 && u.positions[ID].sellOrder.value.filledQuantity == 2.0
  {
    assert ReleasePending(s, ID) == s;
  }

  /** The sell order was for 1; its fill books 2. */
  lemma StaleSaleIsReached()
    ensures var s := Run(Start(TWO_LEVELS, 1000.0, 10.0), BeforeSale());
      && AllowedRun(Start(TWO_LEVELS, 1000.0, 10.0), BeforeSale()) && SellOf(ID) in s.orderOwner
      && var u := SellFilled(s, SellOf(ID), 100.0);
         && ID in u.positions && u.positions[ID].state == Completed && u.positions[ID].sellOrder.Some?
         && u.positions[ID].sellOrder.value.quantity == 1.0 && u.positions[ID].sellOrder.value.filledQuantity == 2.0
  {
    hide Step, Run, AllowedRun, Allowed, SellFilled;
    var es := BeforeSale();
    var s0 := Start(TWO_LEVELS, 1000.0, 10.0);
    Opens(s0);
    var s1 := Step(s0, es[0]);
    assert s1.positions == map[ID := s1.positions[ID]];
    FirstFill(s1, s1.positions[ID]);
    var s2 := Step(s1, es[1]);
    PlacesSale(s2);
    var s3 := Step(s2, es[2]);
    assert s3.orderOwner == map[Dca(ID, 1) := ID, SellOf(ID) := ID];
    SecondFill(s3);
    var s4 := Step(s3, es[3]);
    SellsTwo(s4);
    EventsAreAllowed(s0, s1, s2, s3);
    RunsFrom(s0, es, 0);
    RunsFrom(s1, es, 1);
    RunsFrom(s2, es, 2);
    RunsFrom(s3, es, 3);
    RunsFrom(s4, es, 4);
  }

  // ----- A fill that is not what was locked -----

  lemma PendingLocksItsCost(p: Position)
    requires p.pending == Some(0) && |p.buyOrders| == 1 && p.buyOrders[0].id == Dca(ID, 0)
    requires p.buyOrders[0].price == 90.0 && p.buyOrders[0].quantity == Ratio(100.0, 90.0)
    ensures PendingCost(p) == 100.0 && Cost(90.0, 1.0) == 90.0 && Fill(p, Dca(ID, 0), 90.0, 1.0).Some?
  {
    RatioTimes(100.0, 90.0);
  }

  /** The first order locks 100; a fill of quantity 1 at its limit, the quantity the executor
      passes with every fill, leaves 10 more locked than is accounted for. */
  lemma FillOfOneBreaksLedger()
    ensures var s := Step(Start(TWO_LEVELS, 1000.0, 10.0), BeforeSale()[0]);
      && s == Run(Start(TWO_LEVELS, 1000.0, 10.0), [BeforeSale()[0]])
      && ID in s.positions && PendingCost(s.positions[ID]) == 100.0 && Drift(s) == 0.0
      && Drift(Step(s, BeforeSale()[1])) == 10.0
  {
    hide CandleClosed, BuyFilled, Inv, OneOpen, Drift, Equity, AllBacked, Follows, KeepsLedger;
    var s0 := Start(TWO_LEVELS, 1000.0, 10.0);
    var es := [BeforeSale()[0]];
    Opens(s0);
    var s := Step(s0, es[0]);
    RunsFrom(s0, es, 0);
    RunsFrom(s, es, 1);
    assert ExactRun(s0, es) by { assert es[1..] == [] && ExactRun(s, []); }
    RunFromStart(TWO_LEVELS, 1000.0, 10.0, es);
    assert Allowed(s, BeforeSale()[1]);
    BuyFilledKeeps(s, Dca(ID, 0), 90.0, 1.0, 0.0);
    PendingLocksItsCost(s.positions[ID]);
  }
}
