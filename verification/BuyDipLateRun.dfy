/**
 A run on which a delayed placement does fire late: with one level configured and a cooldown
 of 90 seconds, a candle opens a position, its order is cancelled, two candles a minute apart
 each schedule a replacement, the first replacement is placed and filled, and then the second
 one wakes.
 */
module BuyDipLateRun {
  import opened Options
  import opened Money
  import opened Budgets
  import opened BuyDipPositions
  import opened BuyDipEngine
  import opened BuyDipInvariants
  import opened BuyDipEvents
  import opened BuyDipRuns

  const ONE_LEVEL: Config := Config([10.0], 1.0, 90.0, 1.0, 2.0)

  const ID: PositionId := TopId("BTCUSDC", 1)

  const FIRST_ORDER: OrderId := Dca(ID, 0)

  const LATE_TASK: Task := Task(ID, 90.0, FIRST_ORDER)

  function BeforeFill(): seq<Event>
  {
    [ OnCandle("BTCUSDC", Candle(100.0, Some(1)), true, 0.0),
      OnOrderClosed(FIRST_ORDER),
      OnCandle("BTCUSDC", Candle(100.0, Some(2)), false, 60.0),
      OnCandle("BTCUSDC", Candle(100.0, Some(3)), false, 120.0),
      OnPlacementDue(LATE_TASK, 150.0),
      OnBuyFill(FIRST_ORDER, 90.0, 1.0, 180.0) ]
  }

  /** When the second placement wakes: the second candle's time plus the cooldown. */
  const WOKEN: real := 210.0

  /** The only position waits at its top with these orders. */
  predicate Waiting(s: Engine, orders: seq<OrderInfo>, pending: Option<nat>)
  {
    s.config == ONE_LEVEL && s.symbolIds == map["BTCUSDC" := [ID]] &&
    s.positions == map[ID := Fresh("BTCUSDC").(state := PotentialTop, topPrice := Some(100.0),
                                               buyOrders := orders, pending := pending)] &&
    s.budget.percentage == 10.0 && s.budget.minimum == 10.0
  }

  predicate FirstLevel(o: OrderInfo)
  {
    o.id == FIRST_ORDER && o.price == 90.0 && o.level == 0 && o.quantity > 0.0
  }

  lemma OneIn(s: Engine, p: Position, st: PositionState)
    requires s.positions == map[ID := p] && s.symbolIds == map["BTCUSDC" := [ID]]
    ensures Ids(s, "BTCUSDC") == [ID]
    ensures InState(s.positions, [ID], st) == if p.state == st then [ID] else []
  {
    assert [ID][1..] == [];
  }

  lemma Affordable(b: Budget)
    requires b.percentage == 10.0 && b.minimum == 10.0 && b.available >= 500.0
    ensures OrderSize(b).Some? && OrderSize(b).value == b.available * 0.1
  {
  }

  /** Placing the first level from a waiting position without a pending order. */
  lemma Places(s: Engine, orders: seq<OrderInfo>) returns (o: OrderInfo)
    requires Waiting(s, orders, None) && s.budget.available >= 700.0
    ensures FirstLevel(o) && o.status == New
    ensures var t := PlaceOrder(s, ID, 90.0, FIRST_ORDER);
      Waiting(t, orders + [o], Some(|orders|)) && t.tasks == s.tasks &&
        t.orderOwner == s.orderOwner[FIRST_ORDER := ID] &&
      t.budget.available == s.budget.available * 0.9
  {
    Affordable(s.budget);
    o := OrderInfo(FIRST_ORDER, 90.0, Ratio(OrderSize(s.budget).value, 90.0), 0, New, 0.0, None);
  }

  /** Scheduling and clearing flags after a candle of a waiting position. */
  lemma Quiet(s: Engine, orders: seq<OrderInfo>, pending: Option<nat>, c: Candle, now: real)
    requires Waiting(s, orders, pending) && (pending.Some? ==> pending.value < |orders|)
    ensures var ids := InState(s.positions, Ids(s, "BTCUSDC"), PotentialTop);
      var t := ClearFlags(ScheduleAll(s, ids, c, now), Ids(s, "BTCUSDC"));
      t == s.(tasks := if pending.None? then s.tasks + multiset{LATE_TASK} else s.tasks)
  {
    var p := s.positions[ID];
    OneIn(s, p, PotentialTop);
    assert ScheduleAll(s, [ID], c, now) == ScheduleOne(s, ID, c, now) by { assert [ID][1..] == []; }
    var s1 := ScheduleOne(s, ID, c, now);
    assert s1.positions[ID := p.(justInvalidated := false)] == s1.positions;
    assert ClearFlags(s1, [ID]) == s1 by { assert [ID][1..] == []; }
  }

  lemma Opens(s: Engine) returns (o: OrderInfo)
    requires s == Start(ONE_LEVEL, 1000.0, 10.0)
    ensures FirstLevel(o)
    ensures var t := Step(s, BeforeFill()[0]);
      Waiting(t, [o], Some(0)) && t.tasks == multiset{} && t.orderOwner == map[FIRST_ORDER := ID] &&
      t.budget.available == 900.0
  {
    Affordable(s.budget);
    var c := Candle(100.0, Some(1));
    assert NewHigh(s, "BTCUSDC", c, 0.0) == s;
    assert RisingDecision(s, "BTCUSDC", c) == OpenNew(ID);
    var s1 := AddPosition(s, ID, Fresh("BTCUSDC"));
    var s2 := Put(s1, ID, WithTop(s1.positions[ID], 100.0));
    assert s1.symbolIds == map["BTCUSDC" := [] + [ID]] && [] + [ID] == [ID];
    assert s1.positions == map[ID := Fresh("BTCUSDC")] && s2.positions == map[ID := s2.positions[ID]];
    o := Places(s2, []);
    var s3 := PlaceOrder(s2, ID, 90.0, FIRST_ORDER);
    assert [] + [o] == [o];
    assert Rising(s, "BTCUSDC", c) == s3;
    Quiet(s3, [o], Some(0), c, 0.0);
  }

  lemma Cancels(s: Engine, o: OrderInfo) returns (x: OrderInfo)
    requires Waiting(s, [o], Some(0)) && FirstLevel(o) && s.orderOwner == map[FIRST_ORDER := ID]
    ensures FirstLevel(x) && x.status == Canceled
    ensures var t := Step(s, OnOrderClosed(FIRST_ORDER));
      Waiting(t, [x], None) && t.tasks == s.tasks && t.orderOwner == map[] && t.budget.available >= s.budget.available
  {
    x := o.(status := Canceled);
    assert [o][0 := x] == [x];
    assert Cost(o.price, o.quantity) >= 0.0;
  }

  lemma Schedules(s: Engine, orders: seq<OrderInfo>, c: Candle, now: real)
    requires Waiting(s, orders, None) && c.high == 100.0
    ensures CandleClosed(s, "BTCUSDC", c, false, now) == s.(tasks := s.tasks + multiset{LATE_TASK})
  {
    OneIn(s, s.positions[ID], PotentialTop);
    assert !Beaten(s.positions, [ID], 100.0);
    Quiet(s, orders, None, c, now);
  }

  lemma Fires(s: Engine, orders: seq<OrderInfo>) returns (o: OrderInfo)
    requires Waiting(s, orders, None) && LATE_TASK in s.tasks && s.budget.available >= 700.0
    ensures FirstLevel(o) && o.status == New
    ensures var t := Step(s, OnPlacementDue(LATE_TASK, 150.0));
      Waiting(t, orders + [o], Some(|orders|)) && t.tasks == s.tasks - multiset{LATE_TASK} &&
      t.orderOwner == s.orderOwner[FIRST_ORDER := ID] &&
      t.budget.available == s.budget.available * 0.9
  {
    o := Places(s.(tasks := s.tasks - multiset{LATE_TASK}), orders);
  }

  /** The fill is entered in the cancelled order, which carries the same id, and uses up the only
      level; the order that was really filled stays NEW. */
  lemma Fills(s: Engine, x: OrderInfo, o: OrderInfo)
    requires Waiting(s, [x, o], Some(1)) && FirstLevel(x) && FirstLevel(o) && x.status == Canceled && o.status == New
    requires s.orderOwner == map[FIRST_ORDER := ID]
    ensures var t := Step(s, OnBuyFill(FIRST_ORDER, 90.0, 1.0, 180.0));
      ID in t.positions && t.positions[ID].state == Active && t.positions[ID].nextLevel == 1 &&
      t.positions[ID].pending == None &&
      t.positions[ID].cooldownUntil == None && |t.positions[ID].buyOrders| == 2 &&
      t.positions[ID].buyOrders[0].status == Filled && t.positions[ID].buyOrders[1] == o &&
      t.tasks == s.tasks && t.budget == s.budget && t.config == s.config
  {
    var p := s.positions[ID];
    OneIn(s, p, Watching);
    assert FindOrder(p.buyOrders, FIRST_ORDER) == Some(0);
    var q := Fill(p, FIRST_ORDER, 90.0, 1.0).value;
    var s1 := BookFill(s, FIRST_ORDER, ID, q);
    OneIn(s1, q, Watching);
    assert CreatePlaceholder(s1, "BTCUSDC", 180.0) == AddPosition(s1, BaseId("BTCUSDC"), Fresh("BTCUSDC"));
  }

  lemma WaitsOn(s: Engine, t: Engine, orders: seq<OrderInfo>)
    requires Waiting(s, orders, None) && t == s.(tasks := t.tasks)
    ensures Waiting(t, orders, None) && ID in t.positions && t.positions[ID].state == PotentialTop
  {
  }

  /** The two candles, a minute apart. */
  lemma SchedulesTwice(s: Engine, x: OrderInfo) returns (t: Engine, u: Engine)
    requires Waiting(s, [x], None)
    ensures t == Step(s, BeforeFill()[2]) && u == Step(t, BeforeFill()[3])
    ensures Waiting(u, [x], None) && ID in u.positions && u.positions[ID].state == PotentialTop
    ensures u.tasks == s.tasks + multiset{LATE_TASK, LATE_TASK}
    ensures u.budget == s.budget && u.orderOwner == s.orderOwner
  {
    hide CandleClosed, Waiting;
    var es := BeforeFill();
    Schedules(s, [x], es[2].candle, 60.0);
    t := Step(s, es[2]);
    WaitsOn(s, t, [x]);
    Schedules(t, [x], es[3].candle, 120.0);
    u := Step(t, es[3]);
    WaitsOn(t, u, [x]);
  }

  lemma FirstFiveAreAllowed(s0: Engine, s1: Engine, s2: Engine, s3: Engine, s4: Engine)
    requires ID in s4.positions && s4.positions[ID].state == PotentialTop
    ensures var es := BeforeFill();
      Allowed(s0, es[0]) && Allowed(s1, es[1]) && Allowed(s2, es[2]) && Allowed(s3, es[3]) && Allowed(s4, es[4])
  {
  }

  lemma FillIsAllowed(s: Engine, orders: seq<OrderInfo>)
    requires Waiting(s, orders, Some(1))
    ensures Allowed(s, BeforeFill()[5])
  {
  }

  lemma PlacesLate(s: Engine)
    requires ID in s.positions && CanPlace(s.positions[ID]) && s.positions[ID].cooldownUntil == None &&
      LATE_TASK in s.tasks
    requires s.budget.percentage == 10.0 && s.budget.minimum == 10.0 && s.budget.available >= 500.0
    ensures var t := PlacementDue(s, LATE_TASK, WOKEN);
      ID in t.positions && t.positions[ID].state == s.positions[ID].state && PendingOrder(t.positions[ID]).Some? &&
      PendingOrder(t.positions[ID]).value.level == s.positions[ID].nextLevel
  {
    Affordable(s.budget);
  }

  /** The fill has been entered in the wrong order, and the delayed placement then orders a level
      that is not configured. */
  lemma LatePlacementIsReached()
    ensures var s := Run(Start(ONE_LEVEL, 1000.0, 10.0), BeforeFill());
      AllowedRun(Start(ONE_LEVEL, 1000.0, 10.0), BeforeFill()) && LATE_TASK in s.tasks && ID in s.positions &&
      |s.positions[ID].buyOrders| == 2 && s.positions[ID].buyOrders[0].status == Filled &&
      s.positions[ID].buyOrders[1].status == New &&
      var t := PlacementDue(s, LATE_TASK, WOKEN);
      ID in t.positions && t.positions[ID].state == Active && PendingOrder(t.positions[ID]).Some? &&
      PendingOrder(t.positions[ID]).value.level == |ONE_LEVEL.distances|
  {
    hide Step, Run, AllowedRun, Waiting, Allowed, PlacementDue;
    var es := BeforeFill();
    var s0 := Start(ONE_LEVEL, 1000.0, 10.0);
    var o := Opens(s0);
    var s1 := Step(s0, es[0]);
    var x := Cancels(s1, o);
    var s2 := Step(s1, es[1]);
    var s3, s4 := SchedulesTwice(s2, x);
    var y := Fires(s4, [x]);
    var s5 := Step(s4, es[4]);
    assert [x] + [y] == [x, y];
    Fills(s5, x, y);
    var s6 := Step(s5, es[5]);
    PlacesLate(s6);
    FirstFiveAreAllowed(s0, s1, s2, s3, s4);
    FillIsAllowed(s5, [x, y]);
    RunsFrom(s0, es, 0);
    RunsFrom(s1, es, 1);
    RunsFrom(s2, es, 2);
    RunsFrom(s3, es, 3);
    RunsFrom(s4, es, 4);
    RunsFrom(s5, es, 5);
    RunsFrom(s6, es, 6);
  }

  lemma CloseIsAllowed(s: Engine)
    ensures Allowed(s, OnOrderClosed(FIRST_ORDER))
  {
  }

  lemma CancelsOlder(s: Engine, x: OrderInfo, o: OrderInfo)
    requires Waiting(s, [x, o], Some(1)) && FirstLevel(x) && FirstLevel(o) && x.status == Canceled && o.status == New
    requires s.orderOwner == map[FIRST_ORDER := ID]
    ensures var t := Step(s, OnOrderClosed(FIRST_ORDER));
      ID in t.positions && t.positions[ID].pending == None && |t.positions[ID].buyOrders| == 2 &&
      t.positions[ID].buyOrders[0].status == Canceled && t.positions[ID].buyOrders[1].status == New &&
      FIRST_ORDER !in t.orderOwner
  {
    assert FindOrder(s.positions[ID].buyOrders, FIRST_ORDER) == Some(0);
  }

  /** Cancelled instead of filled, the second order stays NEW as well: the cancel is entered in the
      first one, which was cancelled before. */
  lemma CancelEntersOlderOrder()
    ensures AllowedRun(Start(ONE_LEVEL, 1000.0, 10.0), BeforeFill()[..5] + [OnOrderClosed(FIRST_ORDER)])
    ensures var s := Run(Start(ONE_LEVEL, 1000.0, 10.0), BeforeFill()[..5] + [OnOrderClosed(FIRST_ORDER)]);
      ID in s.positions && s.positions[ID].pending == None && |s.positions[ID].buyOrders| == 2 &&
      s.positions[ID].buyOrders[0].status == Canceled && s.positions[ID].buyOrders[1].status == New &&
      FIRST_ORDER !in s.orderOwner
  {
    hide Step, Run, AllowedRun, Waiting, Allowed;
    var es := BeforeFill()[..5] + [OnOrderClosed(FIRST_ORDER)];
    var s0 := Start(ONE_LEVEL, 1000.0, 10.0);
    var o := Opens(s0);
    var s1 := Step(s0, es[0]);
    var x := Cancels(s1, o);
    var s2 := Step(s1, es[1]);
    var s3, s4 := SchedulesTwice(s2, x);
    var y := Fires(s4, [x]);
    var s5 := Step(s4, es[4]);
    assert [x] + [y] == [x, y];
    CancelsOlder(s5, x, y);
    FirstFiveAreAllowed(s0, s1, s2, s3, s4);
    assert Allowed(s5, es[5]) by { CloseIsAllowed(s5); }
    RunsFrom(s0, es, 0);
    RunsFrom(s1, es, 1);
    RunsFrom(s2, es, 2);
    RunsFrom(s3, es, 3);
    RunsFrom(s4, es, 4);
    RunsFrom(s5, es, 5);
    RunsFrom(Step(s5, es[5]), es, 6);
  }
}
