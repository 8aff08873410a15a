/** The promises of the Buy Dip engine over whole runs from an empty start. */
module BuyDipRuns {
  import opened Options
  import opened Money
  import opened Budgets
  import opened BuyDipPositions
  import opened BuyDipEngine
  import opened BuyDipInvariants
  import opened BuyDipChanges
  import opened BuyDipSteps
  import opened BuyDipEvents
  import opened MapSums

  ghost predicate AllowedRun(s: Engine, events: seq<Event>)
    decreases |events|
  {
    events == [] || (Allowed(s, events[0]) && AllowedRun(Step(s, events[0]), events[1..]))
  }

  /** Every buy fill on the run is for what was locked for its order. */
  ghost predicate ExactRun(s: Engine, events: seq<Event>)
    decreases |events|
  {
    events == [] || (FillsWhatWasLocked(s, events[0]) && ExactRun(Step(s, events[0]), events[1..]))
  }

  ghost predicate GoodStart(c: Config, budget: real, percentage: real)
  {
    c.Valid() && budget >= 0.0 && 0.0 < percentage <= 100.0
  }

  lemma StartIsGood(c: Config, budget: real, percentage: real)
    requires GoodStart(c, budget, percentage)
    ensures var s := Start(c, budget, percentage);
            Inv(s) && OneOpen(s) && AllBacked(s) && Drift(s) == 0.0 && Equity(s) == budget
  {
    var none: map<PositionId, Position> := map[];
    SumOfZeros(none, Reserved);
    SumOfZeros(none, Booked);
  }

  lemma KeptParts(s: Engine, t: Engine)
    requires Kept(s, t)
    ensures Follows(s, t) && KeepsLedger(s, t)
  {
  }

  lemma {:induction false} RunKeeps(s: Engine, events: seq<Event>)
    requires Inv(s) && OneOpen(s) && AllowedRun(s, events)
    ensures Inv(Run(s, events)) && OneOpen(Run(s, events)) && Follows(s, Run(s, events))
    ensures ExactRun(s, events) ==> KeepsLedger(s, Run(s, events))
    decreases |events|
  {
    hide Inv, OneOpen, Follows, KeepsLedger, Step, Allowed, FillsWhatWasLocked;
    if events == [] {
      NothingChanges(s);
      GoodIsKept(s, s);
      KeptParts(s, s);
    } else {
      var t := Step(s, events[0]);
      StepKeeps(s, events[0]);
      RunKeeps(t, events[1..]);
      FollowsTransitive(s, t, Run(t, events[1..]));
      if ExactRun(s, events) {
        LedgerTransitive(s, t, Run(t, events[1..]));
      }
    }
  }

  lemma RunFromStart(c: Config, budget: real, percentage: real, events: seq<Event>)
    requires GoodStart(c, budget, percentage) && AllowedRun(Start(c, budget, percentage), events)
    ensures var t := Run(Start(c, budget, percentage), events);
            && Inv(t) && OneOpen(t) && Equity(t) == budget && t.config == c && t.budget.minimum == 10.0
            && (ExactRun(Start(c, budget, percentage), events) ==> Drift(t) == 0.0 && AllBacked(t))
  {
    var s := Start(c, budget, percentage);
    StartIsGood(c, budget, percentage);
    RunKeeps(s, events);
    hide Inv, OneOpen, Drift, Equity, AllBacked, Run;
  }

  // ----- The budget -----

  /** Buy orders whose money has not come back: the pending one and the filled ones. */
  function Unreleased(p: Position): nat
  {
    (if PendingOrder(p).Some? then 1 else 0) + (if p.state == Completed then 0 else p.nextLevel)
  }

  function MinimumHeld(minimum: real): Position -> real
  {
    (p: Position) => minimum * (Unreleased(p) as real)
  }

  lemma BackedHolds(minimum: real, c: Config, id: PositionId, p: Position)
    requires minimum > 0.0 && Backed(minimum, p) && PositionOk(c, id, p)
    ensures MinimumHeld(minimum)(p) <= Reserved(p)
  {
    var n := if p.state == Completed then 0 else p.nextLevel;
    assert minimum * ((1 + n) as real) == minimum + minimum * (n as real);
  }

  /**
   The locked budget is what the pending orders and the open positions have cost, the
   available budget is never negative, and every order not yet released was worth at
   least the minimum order size.
   */
  lemma LockedIsAccountedFor(c: Config, budget: real, percentage: real, events: seq<Event>)
    requires GoodStart(c, budget, percentage) && AllowedRun(Start(c, budget, percentage), events)
    requires ExactRun(Start(c, budget, percentage), events)
    ensures var t := Run(Start(c, budget, percentage), events);
            && t.budget.locked == Sum(t.positions, Reserved)
            && Sum(t.positions, MinimumHeld(10.0)) <= t.budget.available + t.budget.locked
  {
    RunFromStart(c, budget, percentage, events);
    var t := Run(Start(c, budget, percentage), events);
    forall id | id in t.positions
      ensures MinimumHeld(10.0)(t.positions[id]) <= Reserved(t.positions[id])
    {
      BackedHolds(10.0, t.config, id, t.positions[id]);
    }
    SumMonotone(t.positions, MinimumHeld(10.0), Reserved);
  }

  /** A fill price of 0 is the one for which the source reports no profit. */
  predicate SoldForNothing(p: Position)
  {
    p.sellOrder.Some? && p.sellOrder.value.filledPrice == Some(0.0)
  }

  /** Whatever the fills, the budget is the initial one plus the profits taken. */
  lemma BudgetIsInitialPlusProfit(c: Config, budget: real, percentage: real, events: seq<Event>)
    requires GoodStart(c, budget, percentage) && AllowedRun(Start(c, budget, percentage), events)
    ensures var t := Run(Start(c, budget, percentage), events);
            && t.budget.available >= 0.0
            && t.budget.available + t.budget.locked == budget + Sum(t.positions, Booked)
            && (forall id :: id in t.positions ==>
                  (t.positions[id].state != Completed ==> Booked(t.positions[id]) == 0.0)
                  && (t.positions[id].state == Completed && !SoldForNothing(t.positions[id])
                      ==> Profit(t.positions[id]) == Some(Booked(t.positions[id]))))
  {
    RunFromStart(c, budget, percentage, events);
    var t := Run(Start(c, budget, percentage), events);
    forall id | id in t.positions
      ensures t.positions[id].state == Completed && !SoldForNothing(t.positions[id])
              ==> Profit(t.positions[id]) == Some(Booked(t.positions[id]))
    {
      assert PositionOk(t.config, id, t.positions[id]);
    }
  }

  lemma BuyOrderIsPending(s: Engine, order: OrderId)
    requires Inv(s) && order in s.orderOwner && !order.SellOf?
    ensures order.owner in s.positions && PendingOrder(s.positions[order.owner]).Some?
    ensures PendingOrder(s.positions[order.owner]).value.id == order
  {
    var p := s.positions[order.owner];
    assert Live(p, order) && PositionOk(s.config, order.owner, p);
  }

  /** A single fill keeps the locked budget accounted for exactly when it costs what was locked. */
  lemma LedgerKeptIff(s: Engine, order: OrderId, price: real, quantity: real, now: real)
    requires Inv(s) && Allowed(s, OnBuyFill(order, price, quantity, now)) && order in s.orderOwner && !order.SellOf?
    ensures PendingOrder(s.positions[order.owner]).Some?
    ensures Drift(BuyFilled(s, order, price, quantity, now)) == Drift(s)
       <==> Cost(price, quantity) == PendingCost(s.positions[order.owner])
  {
    hide BuyFilled, Inv, Drift, Follows, KeepsLedger, PositionOk, Live, Fill;
    BuyOrderIsPending(s, order);
    var p := s.positions[order.owner];
    InvFacts(s, order.owner);
    FillOk(s.config, order.owner, p, price, quantity);
    BuyFilledKeeps(s, order, price, quantity, now);
  }

  // ----- The order map -----

  /** The order map is exactly the live orders, and each position has at most one pending buy. */
  lemma OrderMapIsExact(c: Config, budget: real, percentage: real, events: seq<Event>, order: OrderId)
    requires GoodStart(c, budget, percentage) && AllowedRun(Start(c, budget, percentage), events)
    ensures var t := Run(Start(c, budget, percentage), events);
            && (order in t.orderOwner ==> t.orderOwner[order] == order.owner)
            && (order in t.orderOwner <==>
                  && order.owner in t.positions
                  && var p := t.positions[order.owner];
                     || (p.pending.Some? && p.pending.value < |p.buyOrders| && p.buyOrders[p.pending.value].id == order)
                     || (p.sellOrder.Some? && p.sellOrder.value.status == New && p.sellOrder.value.id == order))
            && (forall o, o' :: o in t.orderOwner && o' in t.orderOwner && o.owner == o'.owner ==>
                  !o.SellOf? && !o'.SellOf? ==> o == o')
  {
    RunFromStart(c, budget, percentage, events);
    var t := Run(Start(c, budget, percentage), events);
    forall o, o' | o in t.orderOwner && o' in t.orderOwner && o.owner == o'.owner && !o.SellOf? && !o'.SellOf?
      ensures o == o'
    {
      BuyOrderIsPending(t, o);
      BuyOrderIsPending(t, o');
    }
  }

  /** On every run a buy fill is entered in the order it is for exactly when no earlier order of
      the position carries its id. */
  lemma FillEntersItsOrderIff(c: Config, budget: real, percentage: real, events: seq<Event>, order: OrderId,
                              price: real, quantity: real)
    requires GoodStart(c, budget, percentage) && AllowedRun(Start(c, budget, percentage), events)
    requires order in Run(Start(c, budget, percentage), events).orderOwner && !order.SellOf?
    ensures var t := Run(Start(c, budget, percentage), events);
            && order.owner in t.positions && PendingOrder(t.positions[order.owner]).Some?
            && var p := t.positions[order.owner];
               var k := p.pending.value;
               var q := Fill(p, order, price, quantity);
               && p.buyOrders[k].id == order && q.Some? && |q.value.buyOrders| == |p.buyOrders|
               && (q.value.buyOrders[k].status == Filled <==> IdIsNew(p, k))
  {
    hide Inv, OneOpen, Drift, Equity, AllBacked, Run, Fill;
    RunFromStart(c, budget, percentage, events);
    var t := Run(Start(c, budget, percentage), events);
    BuyOrderIsPending(t, order);
    InvFacts(t, order.owner);
    FillEntersPendingIff(c, order.owner, t.positions[order.owner], price, quantity);
  }

  // ----- Candles without a timestamp -----

  predicate Stampless(events: seq<Event>)
  {
    forall e <- events :: e.OnCandle? ==> e.candle.timestamp.None?
  }

  lemma StamplessStepDoesNothing(c: Config, budget: real, percentage: real, e: Event)
    requires e.OnCandle? ==> e.candle.timestamp.None?
    ensures Step(Start(c, budget, percentage), e) == Start(c, budget, percentage)
  {
    var s := Start(c, budget, percentage);
    match e
    case OnCandle(symbol, candle, rising, now) =>
      assert Ids(s, symbol) == [];
      assert NewHigh(s, symbol, candle, now) == s;
      assert RisingDecision(s, symbol, candle).NoBudget? || RisingDecision(s, symbol, candle).NoTimestamp?;
    case OnTicker(symbol, price) => assert Ids(s, symbol) == [];
    case _ =>
  }

  /** If no candle carries a timestamp, as the executor's do not, no run without a runtime
      configuration update ever leaves the start. */
  lemma {:induction false} StamplessRunDoesNothing(c: Config, budget: real, percentage: real, events: seq<Event>)
    requires Stampless(events)
    ensures Run(Start(c, budget, percentage), events) == Start(c, budget, percentage)
    decreases |events|
  {
    hide Step;
    if events != [] {
      assert events[0] in events;
      StamplessStepDoesNothing(c, budget, percentage, events[0]);
      StamplessRunDoesNothing(c, budget, percentage, events[1..]);
    }
  }

  /** With an open position a rising candle promotes it, waits for its fill, or lacks the budget. */
  lemma OpenPositionDecides(s: Engine, symbol: string, c: Candle, j: PositionId)
    requires Inv(s) && OpenAt(s, symbol, j)
    ensures var d := RisingDecision(s, symbol, c); d.NoBudget? || d.Promote? || d.WaitForFill?
  {
    OpenPositionBlocksNew(s, symbol, c, j);
    var stamped := c.(timestamp := Some(0));
    OpenPositionBlocksNew(s, symbol, stamped, j);
  }

  lemma HasMember(ids: seq<PositionId>)
    ensures ids != [] ==> exists id :: id in ids
  {
    if ids != [] {
      assert ids[0] in ids;
    }
  }

  lemma NoIds(s: Engine, symbol: string)
    requires Inv(s) && forall id <- s.positions :: id.symbol != symbol
    ensures Ids(s, symbol) == []
  {
    assert forall id :: id in Ids(s, symbol) <==> id in s.positions && id.symbol == symbol;
    HasMember(Ids(s, symbol));
  }

  /** On a reachable state a rising candle raises for its missing timestamp exactly when an order
      can be afforded and the symbol has no position at all. */
  lemma RaisesForTimestampIff(s: Engine, symbol: string, c: Candle)
    requires Inv(s) && OneOpen(s)
    ensures RisingDecision(s, symbol, c).NoTimestamp?
       <==> OrderSize(s.budget).Some? && c.timestamp.None? && forall id <- s.positions :: id.symbol != symbol
  {
    hide Inv, OrderSize;
    if id :| id in s.positions && id.symbol == symbol {
      assert HasOpen(s, id.symbol);
      var j :| OpenAt(s, symbol, j);
      OpenPositionDecides(s, symbol, c, j);
    } else {
      NoIds(s, symbol);
    }
  }

  /** The WATCHING position of a symbol is its only open one. */
  lemma OnlyWatching(s: Engine, symbol: string, id: PositionId)
    requires Inv(s) && OneOpen(s) && id in s.positions && id.symbol == symbol && s.positions[id].state == Watching
    ensures id in Ids(s, symbol)
    ensures forall j <- Ids(s, symbol) :: j in s.positions && (IsOpen(s.positions[j]) ==> j == id)
  {
    forall j | j in Ids(s, symbol) ensures j in s.positions && (IsOpen(s.positions[j]) ==> j == id) {
      assert j in s.positions && j.symbol == symbol;
      assert IsOpen(s.positions[j]) ==> OpenAt(s, symbol, j) && OpenAt(s, symbol, id);
    }
  }

  lemma NothingToBeat(s: Engine, symbol: string, c: Candle, now: real)
    requires forall j <- Ids(s, symbol) :: j in s.positions && s.positions[j].state != PotentialTop
    ensures NewHigh(s, symbol, c, now) == s
  {
    var tops := InState(s.positions, Ids(s, symbol), PotentialTop);
    HasMember(tops);
    assert tops == [];
  }

  lemma Promotes(s: Engine, symbol: string, c: Candle, id: PositionId)
    requires OrderSize(s.budget).Some? && id in Ids(s, symbol) && id in s.positions && s.positions[id].state == Watching
    requires forall j <- Ids(s, symbol) :: j in s.positions && (IsOpen(s.positions[j]) ==> j == id)
    ensures RisingDecision(s, symbol, c) == Promote(id)
  {
    var watching := InState(s.positions, Ids(s, symbol), Watching);
    assert id in watching;
    assert watching[0] in watching;
  }

  lemma WatchingIsFresh(s: Engine, id: PositionId)
    requires Inv(s) && id in s.positions && s.positions[id].state == Watching
    ensures CanPlace(s.positions[id])
  {
    assert PositionOk(s.config, id, s.positions[id]);
  }

  lemma OpensAtTop(s: Engine, id: PositionId, high: real)
    requires id in s.positions && CanPlace(s.positions[id]) && OrderSize(s.budget).Some? && s.config.distances != []
    ensures var t := OpenAtTop(s, id, high);
            && id in t.positions && t.positions[id].state == PotentialTop && t.positions[id].topPrice == Some(high)
            && PendingOrder(t.positions[id]).Some? && PendingOrder(t.positions[id]).value.id == Dca(id, 0)
            && PendingOrder(t.positions[id]).value.price == LevelPrice(high, s.config.distances[0])
  {
  }

  lemma {:induction false} ClearingKeepsOrders(s: Engine, ids: seq<PositionId>, id: PositionId)
    requires id in s.positions
    ensures var t := ClearFlags(s, ids);
            id in t.positions && t.positions[id] == s.positions[id].(justInvalidated := t.positions[id].justInvalidated)
    decreases ids
  {
    if ids != [] {
      if ids[0] in s.positions {
        ClearingKeepsOrders(Put(s, ids[0], s.positions[ids[0]].(justInvalidated := false)), ids[1..], id);
      } else {
        ClearingKeepsOrders(s, ids[1..], id);
      }
    }
  }

  lemma {:induction false} SchedulingKeepsKeys(s: Engine, ids: seq<PositionId>, c: Candle, now: real)
    ensures ScheduleAll(s, ids, c, now).positions == s.positions
    decreases ids
  {
    if ids != [] {
      SchedulingKeepsKeys(ScheduleOne(s, ids[0], c, now), ids[1..], c, now);
    }
  }

  /** With a WATCHING position and an affordable order, a rising candle puts that position at its
      high and places the first order, whether it carries a timestamp or not. */
  lemma RisingPromotesWatching(s: Engine, symbol: string, c: Candle, now: real, id: PositionId)
    requires Inv(s) && OneOpen(s) && c.high > 0.0 && OrderSize(s.budget).Some?
    requires id in s.positions && id.symbol == symbol && s.positions[id].state == Watching
    ensures var t := CandleClosed(s, symbol, c, true, now);
            && id in t.positions && t.positions[id].state == PotentialTop && t.positions[id].topPrice == Some(c.high)
            && PendingOrder(t.positions[id]).Some?
            && var o := PendingOrder(t.positions[id]).value;
               o.id == Dca(id, 0) && o.price == LevelPrice(c.high, s.config.distances[0])
  {
    hide Inv, OneOpen, OrderSize, NewHigh, RisingDecision, ScheduleAll, ClearFlags, OpenAtTop, PositionOk;
    InvFacts(s, id);
    OnlyWatching(s, symbol, id);
    assert NewHigh(s, symbol, c, now) == s by { NothingToBeat(s, symbol, c, now); }
    assert RisingDecision(s, symbol, c) == Promote(id) by { Promotes(s, symbol, c, id); }
    var s1 := OpenAtTop(s, id, c.high);
    WatchingIsFresh(s, id);
    OpensAtTop(s, id, c.high);
    var ids := InState(s1.positions, Ids(s1, symbol), PotentialTop);
    SchedulingKeepsKeys(s1, ids, c, now);
    ClearingKeepsOrders(ScheduleAll(s1, ids, c, now), Ids(ScheduleAll(s1, ids, c, now), symbol), id);
  }

  /** So after a configuration update, which creates a WATCHING position, the first affordable
      rising candle opens the symbol, without a timestamp as well. */
  lemma UpdateThenCandleOpens(c: Config, budget: real, percentage: real, symbol: string, before: real,
                              candle: Candle, now: real)
    requires GoodStart(c, budget, percentage) && OrderSize(Start(c, budget, percentage).budget).Some? &&
      candle.high > 0.0
    ensures var s := CreatePlaceholder(Start(c, budget, percentage), symbol, before);
            var t := CandleClosed(s, symbol, candle, true, now);
            && BaseId(symbol) in t.positions && t.positions[BaseId(symbol)].state == PotentialTop
            && PendingOrder(t.positions[BaseId(symbol)]).Some?
  {
    hide CandleClosed, Inv, Follows, KeepsLedger, AllBacked, Drift, Equity, OrderSize;
    var start := Start(c, budget, percentage);
    StartIsGood(c, budget, percentage);
    PlaceholderKeeps(start, symbol, before);
    assert Ids(start, symbol) == [];
    var s := CreatePlaceholder(start, symbol, before);
    assert OpenAt(s, symbol, BaseId(symbol));
    assert OneOpen(s);
    RisingPromotesWatching(s, symbol, candle, now, BaseId(symbol));
  }

  lemma OpeningAdds(s: Engine, id: PositionId, high: real)
    ensures id in OpenAtTop(AddPosition(s, id, Fresh(id.symbol)), id, high).positions
  {
  }

  lemma {:induction false} ClearingKeepsKeys(s: Engine, ids: seq<PositionId>)
    ensures ClearFlags(s, ids).positions.Keys == s.positions.Keys
    decreases ids
  {
    if ids != [] {
      if ids[0] in s.positions {
        ClearingKeepsKeys(Put(s, ids[0], s.positions[ids[0]].(justInvalidated := false)), ids[1..]);
      } else {
        ClearingKeepsKeys(s, ids[1..]);
      }
    }
  }

  /** What a rising candle does to a symbol without positions. */
  lemma RisingWithoutPositions(s: Engine, symbol: string, candle: Candle, now: real)
    requires Ids(s, symbol) == []
    ensures var t := CandleClosed(s, symbol, candle, true, now);
            if OrderSize(s.budget).Some? && candle.timestamp.Some?
            then TopId(symbol, candle.timestamp.value) in t.positions
            else t == s
  {
    hide OrderSize, OpenAtTop, AddPosition;
    assert NewHigh(s, symbol, candle, now) == s;
    if OrderSize(s.budget).Some? && candle.timestamp.Some? {
      var id := TopId(symbol, candle.timestamp.value);
      assert RisingDecision(s, symbol, candle) == OpenNew(id);
      var s1 := OpenAtTop(AddPosition(s, id, Fresh(symbol)), id, candle.high);
      assert id in s1.positions by { OpeningAdds(s, id, candle.high); }
      var ids := InState(s1.positions, Ids(s1, symbol), PotentialTop);
      SchedulingKeepsKeys(s1, ids, candle, now);
      ClearingKeepsKeys(ScheduleAll(s1, ids, candle, now), Ids(ScheduleAll(s1, ids, candle, now), symbol));
    }
  }

  /** A rising candle for a symbol without positions opens one exactly when an order can be
      afforded and the candle carries a timestamp. */
  lemma RisingOpensIff(s: Engine, symbol: string, candle: Candle, now: real)
    requires Inv(s) && forall id <- s.positions :: id.symbol != symbol
    ensures (exists id :: id in CandleClosed(s, symbol, candle, true, now).positions && id.symbol == symbol)
       <==> OrderSize(s.budget).Some? && candle.timestamp.Some?
  {
    hide CandleClosed, OrderSize;
    NoIds(s, symbol);
    hide Inv;
    RisingWithoutPositions(s, symbol, candle, now);
    if OrderSize(s.budget).Some? && candle.timestamp.Some? {
      assert TopId(symbol, candle.timestamp.value).symbol == symbol;
    }
  }

  // ----- The life of a position -----

  /** The states positions go through, and what each state says about their record. */
  lemma Lifecycle(c: Config, budget: real, percentage: real, events: seq<Event>, id: PositionId)
    requires GoodStart(c, budget, percentage) && AllowedRun(Start(c, budget, percentage), events)
    requires id in Run(Start(c, budget, percentage), events).positions
    ensures var p := Run(Start(c, budget, percentage), events).positions[id];
            && p.state != Invalidated
            && (p.state == PotentialTop ==> p.nextLevel == 0 && p.confirmedTop == None && p.totalQuantity == 0.0)
            && (p.state == Active || p.state == Completed ==> p.confirmedTop == p.topPrice && p.topPrice.Some?)
            && p.nextLevel == FilledCount(p.buyOrders) <= |c.distances|
            && (p.nextLevel > 0 ==>
                  p.averageEntry.Some? && Cost(p.averageEntry.value, p.totalQuantity) == p.totalInvested)
  {
    RunFromStart(c, budget, percentage, events);
    var t := Run(Start(c, budget, percentage), events);
    assert PositionOk(t.config, id, t.positions[id]);
  }

  lemma {:induction false} RunAppend(s: Engine, first: seq<Event>, second: seq<Event>)
    ensures Run(s, first + second) == Run(Run(s, first), second)
    ensures AllowedRun(s, first + second) <==> AllowedRun(s, first) && AllowedRun(Run(s, first), second)
    decreases |first|
  {
    if first == [] {
      assert first + second == second;
    } else {
      assert (first + second)[1..] == first[1..] + second;
      RunAppend(Step(s, first[0]), first[1..], second);
    }
  }

  /** A run from its `i`-th event on is that event and the run after it. */
  lemma RunsFrom(s: Engine, events: seq<Event>, i: nat)
    requires i <= |events|
    ensures i == 0 ==> events[i..] == events
    ensures if i == |events| then Run(s, events[i..]) == s && AllowedRun(s, events[i..])
            else Run(s, events[i..]) == Run(Step(s, events[i]), events[i + 1..]) &&
                 (AllowedRun(s, events[i..]) <==>
                  Allowed(s, events[i]) && AllowedRun(Step(s, events[i]), events[i + 1..]))
  {
    if i < |events| {
      assert events[i..][0] == events[i] && events[i..][1..] == events[i + 1..];
    }
  }

  /** From any moment of a run to any later one, positions only move forward. */
  lemma PositionsOnlyMoveForward(c: Config, budget: real, percentage: real, first: seq<Event>, second: seq<Event>,
                                 id: PositionId)
    requires GoodStart(c, budget, percentage) && AllowedRun(Start(c, budget, percentage), first + second)
    requires id in Run(Start(c, budget, percentage), first).positions
    ensures id in Run(Start(c, budget, percentage), first + second).positions
    ensures var p := Run(Start(c, budget, percentage), first).positions[id];
            var q := Run(Start(c, budget, percentage), first + second).positions[id];
            && Rank(p.state) <= Rank(q.state)
            && (p.topPrice.Some? ==> q.topPrice.Some? && p.topPrice.value <= q.topPrice.value)
            && (p.confirmedTop.Some? ==> q.confirmedTop == p.confirmedTop && q.topPrice == p.topPrice)
            && (p.state == Completed ==> q == p.(justInvalidated := q.justInvalidated))
  {
    var s := Start(c, budget, percentage);
    RunAppend(s, first, second);
    RunFromStart(c, budget, percentage, first);
    hide Inv, OneOpen, KeepsLedger;
    RunKeeps(Run(s, first), second);
  }

  /** One position per symbol is watching or waiting at its top, and exactly one once any exists. */
  lemma OneOpenPerSymbol(c: Config, budget: real, percentage: real, events: seq<Event>, symbol: string)
    requires GoodStart(c, budget, percentage) && AllowedRun(Start(c, budget, percentage), events)
    ensures var t := Run(Start(c, budget, percentage), events);
            && (forall i, j :: OpenAt(t, symbol, i) && OpenAt(t, symbol, j) ==> i == j)
            && ((exists i :: i in t.positions && i.symbol == symbol) <==> (exists i :: OpenAt(t, symbol, i)))
  {
    RunFromStart(c, budget, percentage, events);
    var t := Run(Start(c, budget, percentage), events);
    hide Inv;
    if i :| i in t.positions && i.symbol == symbol {
      assert HasOpen(t, i.symbol);
    }
    if i :| OpenAt(t, symbol, i) {
      assert i in t.positions && i.symbol == symbol;
    }
  }

  // ----- Delayed placements -----

  /** Placed late, the order carries a first-level id at a later level. */
  lemma LatePlacementBreaksRules(s: Engine, t: Task, now: real)
    requires Inv(s) && t in s.tasks && t.owner in s.positions && !WakesSafely(s, t, now)
    ensures !Inv(PlacementDue(s, t, now))
    ensures var p := s.positions[t.owner];
            var u := PlacementDue(s, t, now);
            && t.owner in u.positions && PendingOrder(u.positions[t.owner]).Some?
            && PendingOrder(u.positions[t.owner]).value.id == Dca(t.owner, 0)
            && PendingOrder(u.positions[t.owner]).value.level == p.nextLevel > 0
            && |u.positions[t.owner].buyOrders| == |p.buyOrders| + 1
  {
    assert TaskOk(s.config, s.positions, t) && PositionOk(s.config, t.owner, s.positions[t.owner]);
    var p := s.positions[t.owner];
    var u := PlacementDue(s, t, now);
    var q := u.positions[t.owner];
    assert q.buyOrders[|p.buyOrders|].id == Dca(t.owner, 0) && q.buyOrders[|p.buyOrders|].level == p.nextLevel;
    assert !BuyOk(u.config, t.owner, q, q.buyOrders[|p.buyOrders|]);
    assert !PositionOk(u.config, t.owner, q);
  }

  /**
   A delayed placement keeps the engine's rules exactly when its position still waits at
   its top or one of the checks before placing turns it down. The source does not look
   at the state there.
   */
  lemma PlacementDueSafeIff(s: Engine, t: Task, now: real)
    requires Inv(s) && t in s.tasks
    ensures t.owner in s.positions && (Inv(PlacementDue(s, t, now)) <==> WakesSafely(s, t, now))
  {
    TaskIsPlaceable(s, t);
    if WakesSafely(s, t, now) {
      PlacementDueKeeps(s, t, now);
    } else {
      LatePlacementBreaksRules(s, t, now);
    }
  }

  // ----- Profit -----

  /** Everything bought so far cost at most the ceiling of the confirmed top. */
  ghost predicate MarginOk(c: Config, p: Position)
  {
    p.confirmedTop.Some? ==> p.totalInvested <= Cost(Ceiling(c, p.confirmedTop.value), p.totalQuantity)
  }

  /** A buy fill of position `id` is at or below the limit of its order. */
  ghost predicate AtOrBelowLimit(s: Engine, e: Event, id: PositionId)
  {
    e.OnBuyFill? && e.order.owner == id && id in s.positions && PendingOrder(s.positions[id]).Some?
    ==> e.price <= PendingOrder(s.positions[id]).value.price
  }

  ghost predicate LimitRun(s: Engine, events: seq<Event>, id: PositionId)
    decreases |events|
  {
    events == [] || (AtOrBelowLimit(s, events[0], id) && LimitRun(Step(s, events[0]), events[1..], id))
  }

  /** Where the level of a position does not move, neither does its margin. */
  lemma MarginFollows(c: Config, p: Position, q: Position)
    requires Evolves(p, q) && q.nextLevel == p.nextLevel && MarginOk(c, p)
    requires p.confirmedTop.None? ==> q.confirmedTop.None?
    ensures MarginOk(c, q)
  {
  }

  lemma CheapFillKeepsMargin(c: Config, id: PositionId, p: Position, price: real, quantity: real)
    requires c.Valid() && PositionOk(c, id, p) && PendingOrder(p).Some? && MarginOk(c, p)
    requires 0.0 < price <= PendingOrder(p).value.price && quantity > 0.0
    ensures var q := Fill(p, PendingOrder(p).value.id, price, quantity); q.Some? && MarginOk(c, q.value)
  {
    FillOk(c, id, p, price, quantity);
    assert BuyOk(c, id, p, PendingOrder(p).value);
    var ceiling := Ceiling(c, p.topPrice.value);
    CostMonotone(price, ceiling, quantity);
    CostAdds(ceiling, p.totalQuantity, quantity);
  }

  /** How many levels a position has filled; 0 for one that does not exist. */
  function Level(s: Engine, id: PositionId): nat
  {
    if id in s.positions then s.positions[id].nextLevel else 0
  }

  /** Placing the next level and opening a placeholder leave the bought totals alone. */
  lemma AfterFillTotals(s1: Engine, id: PositionId, confirmed: bool, now: real, j: PositionId)
    requires confirmed ==> StampedId(id.symbol, Milliseconds(now)) !in s1.positions
    ensures var t := AfterFill(s1, id, confirmed, now);
            && Level(t, j) == Level(s1, j)
            && (j in s1.positions ==>
                  && j in t.positions
                  && t.positions[j].confirmedTop == s1.positions[j].confirmedTop
                  && t.positions[j].totalInvested == s1.positions[j].totalInvested
                  && t.positions[j].totalQuantity == s1.positions[j].totalQuantity)
  {
  }

  lemma BuyFilledKeepsMargin(s: Engine, e: Event, id: PositionId)
    requires Inv(s) && e.OnBuyFill? && Allowed(s, e) && AtOrBelowLimit(s, e, id)
    requires id in s.positions && MarginOk(s.config, s.positions[id])
    ensures id in Step(s, e).positions && MarginOk(s.config, Step(s, e).positions[id])
  {
    hide Inv, Fill, BookFill, PositionOk, Ceiling, CreatePlaceholder, PlaceNextLevel;
    if e.order in s.orderOwner {
      LiveBuyIsPending(s, e.order, e.price, e.quantity);
      var owner := e.order.owner;
      var p := s.positions[owner];
      if Fill(p, e.order, e.price, e.quantity).Some? {
        FilledFacts(s, owner, e.price, e.quantity);
        var s1 := BookFill(s, e.order, owner, Fill(p, e.order, e.price, e.quantity).value);
        if owner == id {
          InvFacts(s, id);
          CheapFillKeepsMargin(s.config, id, p, e.price, e.quantity);
        }
        AfterFillTotals(s1, owner, p.state == PotentialTop, e.now, id);
      }
    }
  }

  lemma OpenAtTopLevels(s: Engine, at: PositionId, high: real, id: PositionId)
    ensures Level(OpenAtTop(s, at, high), id) == Level(s, id)
  {
  }

  lemma OpensUnderItsSymbol(s: Engine, symbol: string, c: Candle)
    ensures RisingDecision(s, symbol, c).OpenNew? ==> RisingDecision(s, symbol, c).id.symbol == symbol
  {
  }

  lemma RisingLevels(s: Engine, symbol: string, c: Candle, id: PositionId)
    requires Inv(s) && OneOpen(s)
    ensures Level(Rising(s, symbol, c), id) == Level(s, id)
  {
    hide Inv, OneOpen, OpenAtTop, RisingDecision;
    match RisingDecision(s, symbol, c)
    case Promote(at) => OpenAtTopLevels(s, at, c.high, id);
    case OpenNew(at) =>
      OpensUnderItsSymbol(s, symbol, c);
      NewPositionOnlyFirst(s, symbol, c);
      OpenAtTopLevels(AddPosition(s, at, Fresh(symbol)), at, c.high, id);
    case _ =>
  }

  lemma CandleLevels(s: Engine, symbol: string, c: Candle, rising: bool, now: real, id: PositionId)
    requires Inv(s) && OneOpen(s) && c.high > 0.0
    ensures Level(CandleClosed(s, symbol, c, rising, now), id) == Level(s, id)
  {
    hide Inv, OneOpen, NewHigh, Rising, RisingDecision, ScheduleAll, ClearFlags, InState, Follows, KeepsLedger;
    NewHighKeeps(s, symbol, c, now);
    var s1 := NewHigh(s, symbol, c, now);
    GoodIsKept(s, s1);
    if !(rising && RisingDecision(s1, symbol, c).NoTimestamp?) {
      RisingKeeps(s1, symbol, c);
      RisingLevels(s1, symbol, c, id);
      var s2 := if rising then Rising(s1, symbol, c) else s1;
      ScheduleWaitingKeeps(s2, symbol, c, now);
      var s3 := ScheduleAll(s2, InState(s2.positions, Ids(s2, symbol), PotentialTop), c, now);
      ClearFlagsKeeps(s3, Ids(s3, symbol));
    }
  }

  /** Only a buy fill completes a level. */
  lemma QuietLevels(s: Engine, e: Event, id: PositionId)
    requires Inv(s) && OneOpen(s) && !e.OnBuyFill? && Allowed(s, e)
    ensures Level(Step(s, e), id) == Level(s, id)
  {
    hide Inv, OneOpen, CandleClosed, Ticker, OrderClosed, SellFilled, PlacementDue, ReplacementDue,
         CheckForInvalidation;
    match e
    case OnCandle(symbol, c, rising, now) => CandleLevels(s, symbol, c, rising, now, id);
    case OnTicker(symbol, price) => TickerKeeps(s, symbol, price);
    case OnOrderClosed(order) => OrderClosedKeeps(s, order);
    case OnSellFill(order, price) => SellFilledKeeps(s, order, price);
    case OnPlacementDue(t, now) => PlacementDueKeeps(s, t, now);
    case OnReplacementDue(owner, now) => ReplacementDueKeeps(s, owner, now);
    case OnPriceCheck(symbol, price) => PriceCheckNeverInvalidates(s, symbol, price);
  }

  lemma QuietEventKeepsMargin(s: Engine, e: Event, id: PositionId)
    requires Inv(s) && OneOpen(s) && !e.OnBuyFill? && Allowed(s, e)
    requires id in s.positions && MarginOk(s.config, s.positions[id])
    ensures id in Step(s, e).positions && MarginOk(s.config, Step(s, e).positions[id])
  {
    hide Inv, Step, OneOpen, KeepsLedger, Allowed, BuyOk;
    StepKeeps(s, e);
    QuietLevels(s, e, id);
    InvFacts(s, id);
    InvFacts(Step(s, e), id);
    MarginFollows(s.config, s.positions[id], Step(s, e).positions[id]);
  }

  /** A position that an event brings into being has bought nothing yet. */
  lemma NewcomerIsEmpty(s: Engine, e: Event, id: PositionId)
    requires Inv(s) && OneOpen(s) && Allowed(s, e) && id !in s.positions && id in Step(s, e).positions
    ensures MarginOk(s.config, Step(s, e).positions[id])
  {
    hide Inv, OneOpen, Fill, BookFill, Follows, KeepsLedger;
    StepKeeps(s, e);
    if e.OnBuyFill? {
      if e.order in s.orderOwner {
        LiveBuyIsPending(s, e.order, e.price, e.quantity);
        var p := s.positions[e.order.owner];
        if Fill(p, e.order, e.price, e.quantity).Some? {
          FilledFacts(s, e.order.owner, e.price, e.quantity);
          AfterFillTotals(BookFill(s, e.order, e.order.owner, Fill(p, e.order, e.price, e.quantity).value),
                          e.order.owner, p.state == PotentialTop, e.now, id);
        }
      }
    } else {
      QuietLevels(s, e, id);
    }
    InvFacts(Step(s, e), id);
  }

  lemma StepKeepsMargin(s: Engine, e: Event, id: PositionId)
    requires Inv(s) && OneOpen(s) && Allowed(s, e) && AtOrBelowLimit(s, e, id)
    requires id in s.positions ==> MarginOk(s.config, s.positions[id])
    ensures id in Step(s, e).positions ==> MarginOk(s.config, Step(s, e).positions[id])
  {
    hide Inv, OneOpen, Step, Allowed, MarginOk;
    if id in s.positions {
      if e.OnBuyFill? {
        BuyFilledKeepsMargin(s, e, id);
      } else {
        QuietEventKeepsMargin(s, e, id);
      }
    } else if id in Step(s, e).positions {
      NewcomerIsEmpty(s, e, id);
    }
  }

  lemma {:induction false} RunKeepsMargin(s: Engine, events: seq<Event>, id: PositionId)
    requires Inv(s) && OneOpen(s) && AllowedRun(s, events) && LimitRun(s, events, id)
    requires id in s.positions ==> MarginOk(s.config, s.positions[id])
    ensures id in Run(s, events).positions ==> MarginOk(s.config, Run(s, events).positions[id])
    decreases |events|
  {
    hide Inv, OneOpen, Step, MarginOk, Allowed;
    if events != [] {
      StepKeeps(s, events[0]);
      StepKeepsMargin(s, events[0], id);
      RunKeepsMargin(Step(s, events[0]), events[1..], id);
    }
  }

  lemma MarginArithmetic(invested: real, value: real, d0: real)
    requires 0.0 < d0 < 100.0 && invested > 0.0 && invested <= value * (1.0 - d0 / 100.0)
    ensures value - invested >= invested * (d0 / (100.0 - d0)) > 0.0
  {
    var k := 1.0 - d0 / 100.0;
    var r := d0 / (100.0 - d0);
    assert 0.0 < k < 1.0 && r > 0.0;
    assert r * (100.0 - d0) == d0;
    assert (1.0 + r) * k == 1.0;
    assert invested * (1.0 + r) <= value * k * (1.0 + r);
    assert value * k * (1.0 + r) == value * (k * (1.0 + r));
    assert invested * r > 0.0;
  }

  /** Bought under the ceiling and sold at the top or above, a position earns its margin. */
  lemma SaleEarnsMargin(c: Config, id: PositionId, p: Position)
    requires c.Valid() && PositionOk(c, id, p) && MarginOk(c, p) && p.state == Completed
    requires p.sellOrder.value.filledPrice.value >= p.sellOrder.value.price
    ensures var d0 := c.distances[0];
            Profit(p).Some? && Profit(p).value >= p.totalInvested * (d0 / (100.0 - d0)) > 0.0
  {
    var d0, top, invested := c.distances[0], p.confirmedTop.value, p.totalInvested;
    var k := 1.0 - d0 / 100.0;
    var value := Cost(top, p.totalQuantity);
    CostMonotone(top, p.sellOrder.value.filledPrice.value, p.totalQuantity);
    assert Cost(Ceiling(c, top), p.totalQuantity) == value * k;
    MarginArithmetic(invested, value, d0);
  }

  /**
   On a run whose buys of position `id` all filled at or below their limits, selling it
   at its sell order's price or better earns at least the smallest distance's margin.
   */
  lemma CompletedPositionEarns(c: Config, budget: real, percentage: real, events: seq<Event>, id: PositionId)
    requires GoodStart(c, budget, percentage) && AllowedRun(Start(c, budget, percentage), events)
    requires LimitRun(Start(c, budget, percentage), events, id)
    requires var t := Run(Start(c, budget, percentage), events);
             id in t.positions && t.positions[id].state == Completed
    requires var o := Run(Start(c, budget, percentage), events).positions[id].sellOrder;
             o.Some? && o.value.filledPrice.Some? && o.value.filledPrice.value >= o.value.price
    ensures var p := Run(Start(c, budget, percentage), events).positions[id];
            var d0 := c.distances[0];
            Profit(p).Some? && Profit(p).value >= p.totalInvested * (d0 / (100.0 - d0)) > 0.0
  {
    hide Inv, Run, MarginOk, OneOpen, AllowedRun, LimitRun, Drift, Equity, AllBacked;
    var s := Start(c, budget, percentage);
    StartIsGood(c, budget, percentage);
    RunFromStart(c, budget, percentage, events);
    RunKeepsMargin(s, events, id);
    InvFacts(Run(s, events), id);
    SaleEarnsMargin(c, id, Run(s, events).positions[id]);
  }
}
