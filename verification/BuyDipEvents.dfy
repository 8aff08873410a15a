/** Every event, taken whole, keeps the invariant, the ledgers and the single open position. */
module BuyDipEvents {
  import opened Options
  import opened Money
  import opened Budgets
  import opened BuyDipPositions
  import opened BuyDipEngine
  import opened BuyDipInvariants
  import opened BuyDipChanges
  import opened BuyDipSteps

  /** The position still waits at its top, or one of the checks before placing turns it down. */
  predicate WakesSafely(s: Engine, t: Task, now: real)
    requires t.owner in s.positions
  {
    var p := s.positions[t.owner];
    || p.state == PotentialTop || !CanPlace(p) || OrderSize(s.budget).None?
    || (p.cooldownUntil.Some? && now < p.cooldownUntil.value)
  }

  /**
   What the market, the clock and the event loop are assumed to do. Prices and quantities
   are positive; when a first fill may open a placeholder, its millisecond stamp is new; and a
   delayed placement of
   `process_candle` wakes while its position is still waiting at its top, or places nothing.
   */
  ghost predicate Allowed(s: Engine, e: Event)
  {
    match e
    case OnCandle(_, c, _, _) => c.high > 0.0
    case OnTicker(_, _) => true
    case OnBuyFill(order, price, quantity, now) =>
      && price > 0.0 && quantity > 0.0
      && (order.owner in s.positions && s.positions[order.owner].state == PotentialTop ==>
            StampedId(order.owner.symbol, Milliseconds(now)) !in s.positions)
    case OnOrderClosed(_) => true
    case OnSellFill(_, price) => price >= 0.0
    case OnPlacementDue(t, now) => t.owner in s.positions ==> WakesSafely(s, t, now)
    case OnReplacementDue(_, _) => true
    case OnPriceCheck(_, _) => true
  }

  /** A buy fill is for everything that was locked for the order. */
  ghost predicate FillsWhatWasLocked(s: Engine, e: Event)
  {
    e.OnBuyFill? && e.order in s.orderOwner && e.order.owner in s.positions
    && PendingOrder(s.positions[e.order.owner]).Some? && PendingOrder(s.positions[e.order.owner]).value.id == e.order
    ==> Cost(e.price, e.quantity) == PendingCost(s.positions[e.order.owner])
  }

  // ----- Buy fills -----

  lemma BookFillKeeps(s: Engine, id: PositionId, price: real, quantity: real)
    requires Inv(s) && id in s.positions && PendingOrder(s.positions[id]).Some? && price > 0.0 && quantity > 0.0
    ensures var order := PendingOrder(s.positions[id]).value.id;
            var p := Fill(s.positions[id], order, price, quantity);
            p.Some? && Inv(BookFill(s, order, id, p.value))
  {
    PendingCostPositive(s, id);
    hide Inv, PositionOk, Live, Evolves, OwnersExact, Reserved, Booked, PendingCost, Fill;
    InvFacts(s, id);
    FillOk(s.config, id, s.positions[id], price, quantity);
    var order := PendingOrder(s.positions[id]).value.id;
    var p := Fill(s.positions[id], order, price, quantity).value;
    OwnersDropped(s, id, p, order);
    ReplaceOne(s, id, p, BookFill(s, order, id, p));
  }

  /** The ledger drifts by exactly the difference between what was locked and what was paid. */
  lemma BookFillMoney(s: Engine, id: PositionId, price: real, quantity: real)
    requires Inv(s) && id in s.positions && PendingOrder(s.positions[id]).Some? && price > 0.0 && quantity > 0.0
    ensures var p := s.positions[id];
            var order := PendingOrder(p).value.id;
            var q := Fill(p, order, price, quantity).value;
            var t := BookFill(s, order, id, q);
            && Follows(s, t)
            && Drift(t) == Drift(s) - (Cost(price, quantity) - PendingCost(p))
            && (Cost(price, quantity) == PendingCost(p) && AllBacked(s) ==> AllBacked(t))
  {
    hide Inv, PositionOk, Live, Evolves, OwnersExact, Reserved, Booked, Fill, Drift, Equity;
    InvFacts(s, id);
    FillOk(s.config, id, s.positions[id], price, quantity);
    var order := PendingOrder(s.positions[id]).value.id;
    var q := Fill(s.positions[id], order, price, quantity).value;
    var t := BookFill(s, order, id, q);
    ReplaceOneMoney(s, id, q, t);
    ReplacedFollows(s, id, q, t);
    if Cost(price, quantity) == PendingCost(s.positions[id]) {
      assert s.budget.minimum * (q.nextLevel as real)
          == s.budget.minimum * (s.positions[id].nextLevel as real) + s.budget.minimum;
      ReplacedBacked(s, id, q, t);
    }
  }

  /** The live buy order of a report is its position's pending order. */
  lemma LiveBuyIsPending(s: Engine, order: OrderId, price: real, quantity: real)
    requires Inv(s) && order in s.orderOwner
    ensures s.orderOwner[order] == order.owner && order.owner in s.positions
    ensures Fill(s.positions[order.owner], order, price, quantity).Some? ==>
              PendingOrder(s.positions[order.owner]).Some? && PendingOrder(s.positions[order.owner]).value.id == order
  {
    var p := s.positions[order.owner];
    assert Live(p, order) && PositionOk(s.config, order.owner, p);
    if FindOrder(p.buyOrders, order).Some? {
      assert BuyOk(s.config, order.owner, p, p.buyOrders[FindOrder(p.buyOrders, order).value]);
    }
  }

  lemma PlaceholderKeeps(s: Engine, symbol: string, now: real)
    requires Inv(s) && StampedId(symbol, Milliseconds(now)) !in s.positions
    ensures var t := CreatePlaceholder(s, symbol, now);
            Inv(t) && Follows(s, t) && KeepsLedger(s, t)
  {
    if InState(s.positions, Ids(s, symbol), Watching) == [] {
      AddPositionKeeps(s, PlaceholderId(s, symbol, now));
      AddPositionMoney(s, PlaceholderId(s, symbol, now));
    } else {
      NothingChanges(s);
    }
  }

  /** The two halves of a fill that confirms a top: one position stops being open, one starts. */
  lemma PlaceholderRestoresOneOpen(s: Engine, t: Engine, id: PositionId, symbol: string, now: real)
    requires OneOpen(s) && IndexExact(t) && OpenAt(s, symbol, id)
    requires t.positions.Keys == s.positions.Keys && !IsOpen(t.positions[id])
    requires forall j :: j in s.positions && j != id ==> t.positions[j] == s.positions[j]
    requires StampedId(symbol, Milliseconds(now)) !in t.positions
    ensures OneOpen(CreatePlaceholder(t, symbol, now))
  {
    var watching := InState(t.positions, Ids(t, symbol), Watching);
    if watching != [] {
      assert watching[0] in watching;
      assert OpenAt(s, symbol, watching[0]);
      assert false;
    }
    var added := PlaceholderId(t, symbol, now);
    var u := CreatePlaceholder(t, symbol, now);
    assert OpenAt(u, symbol, added);
    forall i | i in u.positions
      ensures HasOpen(u, i.symbol)
    {
      if i.symbol != symbol {
        assert HasOpen(s, i.symbol);
        var j :| OpenAt(s, i.symbol, j);
        assert OpenAt(u, i.symbol, j);
      }
    }
    forall y, i, j | OpenAt(u, y, i) && OpenAt(u, y, j)
      ensures i == j
    {
      assert i != added ==> OpenAt(s, y, i);
      assert j != added ==> OpenAt(s, y, j);
    }
  }

  /** What is left of a fill once the position has booked it. */
  function AfterFill(s1: Engine, id: PositionId, confirmed: bool, now: real): Engine
  {
    PlaceNextLevel(if confirmed then CreatePlaceholder(s1, id.symbol, now) else s1, id)
  }

  lemma LedgerTransitive(s: Engine, t: Engine, u: Engine)
    requires KeepsLedger(s, t) && KeepsLedger(t, u)
    ensures KeepsLedger(s, u)
  {
  }

  lemma AfterFillKeeps(s1: Engine, id: PositionId, confirmed: bool, now: real)
    requires Inv(s1) && (confirmed ==> StampedId(id.symbol, Milliseconds(now)) !in s1.positions)
    ensures var t := AfterFill(s1, id, confirmed, now);
            Inv(t) && Follows(s1, t) && KeepsLedger(s1, t)
  {
    if confirmed {
      PlaceholderKeeps(s1, id.symbol, now);
    }
    NothingChanges(s1);
    var s2 := if confirmed then CreatePlaceholder(s1, id.symbol, now) else s1;
    PlaceNextLevelKeeps(s2, id);
    hide Inv, KeepsLedger, PlaceNextLevel, CreatePlaceholder, Evolves;
    FollowsTransitive(s1, s2, PlaceNextLevel(s2, id));
    LedgerTransitive(s1, s2, PlaceNextLevel(s2, id));
  }

  lemma FilledFacts(s: Engine, id: PositionId, price: real, quantity: real)
    requires Inv(s) && id in s.positions && PendingOrder(s.positions[id]).Some? && price > 0.0 && quantity > 0.0
    ensures var p := s.positions[id];
            var q := Fill(p, PendingOrder(p).value.id, price, quantity);
            var t := BookFill(s, PendingOrder(p).value.id, id, q.value);
            && q.value.state == Active && p.symbol == id.symbol && (p.state == PotentialTop || p.state == Active)
            && t.positions == s.positions[id := q.value]
  {
    InvFacts(s, id);
    FillOk(s.config, id, s.positions[id], price, quantity);
  }

  lemma BuyFilledKeeps(s: Engine, order: OrderId, price: real, quantity: real, now: real)
    requires Inv(s) && Allowed(s, OnBuyFill(order, price, quantity, now))
    ensures var t := BuyFilled(s, order, price, quantity, now);
            && Inv(t) && Follows(s, t)
            && (FillsWhatWasLocked(s, OnBuyFill(order, price, quantity, now)) ==> KeepsLedger(s, t))
            && (order in s.orderOwner && Fill(s.positions[order.owner], order, price, quantity).Some? ==>
                  Drift(t) == Drift(s) - (Cost(price, quantity) - PendingCost(s.positions[order.owner])))
  {
    hide Inv, PositionOk, Fill, BookFill, Live, Reserved, Evolves, Drift, AllBacked, Equity;
    NothingChanges(s);
    if order in s.orderOwner {
      LiveBuyIsPending(s, order, price, quantity);
      var id := order.owner;
      var p := s.positions[id];
      if Fill(p, order, price, quantity).Some? {
        BookFillKeeps(s, id, price, quantity);
        BookFillMoney(s, id, price, quantity);
        FilledFacts(s, id, price, quantity);
        var p' := Fill(p, order, price, quantity).value;
        var s1 := BookFill(s, order, id, p');
        var confirmed := p.state == PotentialTop;
        AfterFillKeeps(s1, id, confirmed, now);
        hide PlaceNextLevel, CreatePlaceholder;
        assert BuyFilled(s, order, price, quantity, now) == AfterFill(s1, id, confirmed, now);
        FollowsTransitive(s, s1, AfterFill(s1, id, confirmed, now));
      }
    }
  }

  /** Openness is all that matters to `OneOpen`. */
  lemma FillKeepsOpen(s: Engine, t: Engine, id: PositionId)
    requires OneOpen(s) && id in s.positions && t.positions.Keys == s.positions.Keys
    requires IsOpen(s.positions[id]) == IsOpen(t.positions[id])
    requires forall j :: j in s.positions && j != id ==> t.positions[j] == s.positions[j]
    ensures OneOpen(t)
  {
    forall y, i
      ensures OpenAt(t, y, i) <==> OpenAt(s, y, i)
    {
    }
    forall i | i in t.positions
      ensures HasOpen(t, i.symbol)
    {
      assert HasOpen(s, i.symbol);
      var j :| OpenAt(s, i.symbol, j);
      assert OpenAt(t, i.symbol, j);
    }
  }

  /** After a fill, whether it confirms the top or buys a later level, one position is open. */
  lemma AfterFillOneOpen(s: Engine, s1: Engine, id: PositionId, confirmed: bool, now: real)
    requires OneOpen(s) && Inv(s1) && id in s.positions
    requires s1.positions.Keys == s.positions.Keys && !IsOpen(s1.positions[id]) && IsOpen(s.positions[id]) == confirmed
    requires forall j :: j in s.positions && j != id ==> s1.positions[j] == s.positions[j]
    requires confirmed ==> StampedId(id.symbol, Milliseconds(now)) !in s1.positions
    ensures OneOpen(AfterFill(s1, id, confirmed, now))
  {
    hide PositionsOk, TasksOk, OwnersExact, OneOpen, PlaceNextLevel;
    if confirmed {
      PlaceholderKeeps(s1, id.symbol, now);
      PlaceholderRestoresOneOpen(s, s1, id, id.symbol, now);
    } else {
      FillKeepsOpen(s, s1, id);
    }
    hide Inv, CreatePlaceholder;
    var s2 := if confirmed then CreatePlaceholder(s1, id.symbol, now) else s1;
    PlaceNextLevelKeeps(s2, id);
    SameShapeKeepsOneOpen(s2, PlaceNextLevel(s2, id));
  }

  lemma BuyFilledOneOpen(s: Engine, order: OrderId, price: real, quantity: real, now: real)
    requires Inv(s) && OneOpen(s) && Allowed(s, OnBuyFill(order, price, quantity, now))
    ensures OneOpen(BuyFilled(s, order, price, quantity, now))
  {
    hide Inv, Fill, BookFill, OneOpen, CreatePlaceholder, PlaceNextLevel;
    if order in s.orderOwner {
      LiveBuyIsPending(s, order, price, quantity);
      var id := order.owner;
      var p := s.positions[id];
      if Fill(p, order, price, quantity).Some? {
        BookFillKeeps(s, id, price, quantity);
        FilledFacts(s, id, price, quantity);
        var s1 := BookFill(s, order, id, Fill(p, order, price, quantity).value);
        AfterFillOneOpen(s, s1, id, p.state == PotentialTop, now);
      }
    }
  }

  // ----- Sell fills -----

  lemma SellFilledKeeps(s: Engine, order: OrderId, price: real)
    requires Inv(s) && price >= 0.0
    ensures Good(s, SellFilled(s, order, price))
  {
    NothingChanges(s);
    if order in s.orderOwner {
      var id := order.owner;
      ReleasePendingKeeps(s, id);
      var s1 := ReleasePending(s, id);
      assert order.SellOf? ==> order in s1.orderOwner by {
        if PendingOrder(s.positions[id]).Some? {
          PendingCostPositive(s, id);
        }
      }
      CloseWithSaleKeeps(s1, order, id, price);
      hide Inv, Good, ReleasePending, CloseWithSale;
      GoodTransitive(s, s1, CloseWithSale(s1, order, id, price));
    }
  }

  // ----- Candles -----

  lemma OpenPositionBlocksNew(s: Engine, symbol: string, c: Candle, j: PositionId)
    requires Inv(s) && OpenAt(s, symbol, j)
    ensures !RisingDecision(s, symbol, c).OpenNew?
  {
    assert j in Ids(s, symbol) && PositionOk(s.config, j, s.positions[j]);
    var watching := InState(s.positions, Ids(s, symbol), Watching);
    var tops := InState(s.positions, Ids(s, symbol), PotentialTop);
    assert j in watching || j in tops;
    if j in tops {
      var k :| 0 <= k < |tops| && tops[k] == j;
      assert s.positions[tops[k]].nextLevel == 0;
    }
  }

  /** A rising pattern opens a new position only for a symbol that has none at all. */
  lemma NewPositionOnlyFirst(s: Engine, symbol: string, c: Candle)
    requires Inv(s) && OneOpen(s) && RisingDecision(s, symbol, c).OpenNew?
    ensures forall i :: i in s.positions ==> i.symbol != symbol
  {
    hide Inv, RisingDecision;
    forall i | i in s.positions
      ensures i.symbol != symbol
    {
      if i.symbol == symbol {
        assert HasOpen(s, i.symbol);
        var j :| OpenAt(s, symbol, j);
        OpenPositionBlocksNew(s, symbol, c, j);
      }
    }
  }

  lemma FirstPositionOneOpen(s: Engine, symbol: string, id: PositionId)
    requires OneOpen(s) && id.symbol == symbol && (forall i :: i in s.positions ==> i.symbol != symbol)
    ensures OneOpen(AddPosition(s, id, Fresh(symbol)))
  {
    var t := AddPosition(s, id, Fresh(symbol));
    assert OpenAt(t, symbol, id);
    forall i | i in t.positions
      ensures HasOpen(t, i.symbol)
    {
      if i != id {
        assert HasOpen(s, i.symbol);
        var j :| OpenAt(s, i.symbol, j);
        assert OpenAt(t, i.symbol, j);
      }
    }
    forall y, i, j | OpenAt(t, y, i) && OpenAt(t, y, j)
      ensures i == j
    {
      assert i != id ==> OpenAt(s, y, i);
      assert j != id ==> OpenAt(s, y, j);
    }
  }

  ghost predicate Kept(s: Engine, t: Engine)
  {
    Inv(t) && Follows(s, t) && KeepsLedger(s, t) && OneOpen(t)
  }

  lemma GoodIsKept(s: Engine, t: Engine)
    requires OneOpen(s) && Good(s, t)
    ensures Kept(s, t)
  {
    SameShapeKeepsOneOpen(s, t);
  }

  lemma KeptTransitive(s: Engine, t: Engine, u: Engine)
    requires Kept(s, t) && Kept(t, u)
    ensures Kept(s, u)
  {
    FollowsTransitive(s, t, u);
  }

  lemma OpenNewKeeps(s: Engine, symbol: string, id: PositionId, high: real)
    requires Inv(s) && OneOpen(s) && high > 0.0
    requires id.symbol == symbol && (forall i :: i in s.positions ==> i.symbol != symbol)
    ensures Kept(s, OpenAtTop(AddPosition(s, id, Fresh(symbol)), id, high))
  {
    AddPositionKeeps(s, id);
    AddPositionMoney(s, id);
    FirstPositionOneOpen(s, symbol, id);
    hide Inv, Good, OneOpen, Follows, KeepsLedger, OpenAtTop;
    var s1 := AddPosition(s, id, Fresh(symbol));
    OpenAtTopKeeps(s1, id, high);
    GoodIsKept(s1, OpenAtTop(s1, id, high));
    KeptTransitive(s, s1, OpenAtTop(s1, id, high));
  }

  lemma RisingKeeps(s: Engine, symbol: string, c: Candle)
    requires Inv(s) && OneOpen(s) && c.high > 0.0
    ensures Kept(s, Rising(s, symbol, c))
  {
    hide Inv, Good, OneOpen, Kept, OpenAtTop, AddPosition;
    match RisingDecision(s, symbol, c)
    case Promote(id) =>
      assert id in InState(s.positions, Ids(s, symbol), Watching);
      OpenAtTopKeeps(s, id, c.high);
      GoodIsKept(s, OpenAtTop(s, id, c.high));
    case OpenNew(id) =>
      NewPositionOnlyFirst(s, symbol, c);
      OpenNewKeeps(s, symbol, id, c.high);
    case _ =>
      NothingChanges(s);
      GoodIsKept(s, s);
  }

  lemma KeptInv(s: Engine, t: Engine)
    requires Kept(s, t)
    ensures Inv(t) && OneOpen(t)
  {
  }

  lemma ScheduleWaitingKeeps(s: Engine, symbol: string, c: Candle, now: real)
    requires Inv(s)
    ensures Good(s, ScheduleAll(s, InState(s.positions, Ids(s, symbol), PotentialTop), c, now))
  {
    ScheduleAllKeeps(s, InState(s.positions, Ids(s, symbol), PotentialTop), c, now);
  }

  lemma CandleKeeps(s: Engine, symbol: string, c: Candle, rising: bool, now: real)
    requires Inv(s) && OneOpen(s) && c.high > 0.0
    ensures Kept(s, CandleClosed(s, symbol, c, rising, now))
  {
    hide Inv, Good, Kept, OneOpen, NewHigh, Rising, RisingDecision, ScheduleAll, ClearFlags, InState;
    NewHighKeeps(s, symbol, c, now);
    var s1 := NewHigh(s, symbol, c, now);
    GoodIsKept(s, s1);
    KeptInv(s, s1);
    if !(rising && RisingDecision(s1, symbol, c).NoTimestamp?) {
      RisingKeeps(s1, symbol, c);
      var s2 := if rising then Rising(s1, symbol, c) else s1;
      KeptTransitive(s, s1, Rising(s1, symbol, c));
      KeptInv(s, s2);
      ScheduleWaitingKeeps(s2, symbol, c, now);
      var s3 := ScheduleAll(s2, InState(s2.positions, Ids(s2, symbol), PotentialTop), c, now);
      GoodIsKept(s2, s3);
      KeptTransitive(s, s2, s3);
      KeptInv(s, s3);
      ClearFlagsKeeps(s3, Ids(s3, symbol));
      GoodIsKept(s3, ClearFlags(s3, Ids(s3, symbol)));
      KeptTransitive(s, s3, ClearFlags(s3, Ids(s3, symbol)));
    }
  }

  // ----- Delayed placements -----

  /** A delayed placement carries the first level of a top no higher than the present one. */
  lemma TaskIsPlaceable(s: Engine, t: Task)
    requires Inv(s) && t in s.tasks
    ensures t.owner in s.positions
    ensures s.positions[t.owner].state == PotentialTop ==>
      Placeable(s.config, t.owner, s.positions[t.owner], t.id, t.price)
    ensures Good(s, s.(tasks := s.tasks - multiset{t}))
  {
    assert TaskOk(s.config, s.positions, t) && PositionOk(s.config, t.owner, s.positions[t.owner]);
    TasksChange(s, s.(tasks := s.tasks - multiset{t}));
  }

  lemma PlacesNothing(s: Engine, t: Task)
    requires t.owner in s.positions && (!CanPlace(s.positions[t.owner]) || OrderSize(s.budget).None?)
    ensures PlaceOrder(s, t.owner, t.price, t.id) == s
  {
  }

  lemma GoodInv(s: Engine, t: Engine)
    requires Good(s, t)
    ensures Inv(t)
  {
  }

  lemma PlacementDueKeeps(s: Engine, t: Task, now: real)
    requires Inv(s) && Allowed(s, OnPlacementDue(t, now))
    ensures Good(s, PlacementDue(s, t, now))
  {
    hide Inv, Good, PlaceOrder, Placeable;
    NothingChanges(s);
    if t in s.tasks {
      var s1 := s.(tasks := s.tasks - multiset{t});
      TaskIsPlaceable(s, t);
      GoodInv(s, s1);
      if s.positions[t.owner].state == PotentialTop {
        PlaceOrderKeeps(s1, t.owner, t.price, t.id);
        GoodTransitive(s, s1, PlaceOrder(s1, t.owner, t.price, t.id));
      } else if !CanPlace(s.positions[t.owner]) || OrderSize(s.budget).None? {
        PlacesNothing(s1, t);
      }
    }
  }

  lemma ReplacementDueKeeps(s: Engine, id: PositionId, now: real)
    requires Inv(s)
    ensures Good(s, ReplacementDue(s, id, now))
  {
    NothingChanges(s);
    assert s.(scheduled := s.scheduled - {id}) == s;
    if id in s.positions && s.positions[id].state == PotentialTop {
      PlaceReplacementKeeps(s, id, now);
    }
  }

  lemma TickerKeeps(s: Engine, symbol: string, price: real)
    requires Inv(s)
    ensures Good(s, Ticker(s, symbol, price))
  {
    ManageSellsKeeps(s, InState(s.positions, Ids(s, symbol), Active), price);
  }

  /** The price check never finds a waiting position whose top is confirmed. */
  lemma PriceCheckNeverInvalidates(s: Engine, symbol: string, price: real)
    requires Inv(s)
    ensures CheckForInvalidation(s, symbol, price) == s
  {
    CheckAllFindsNothing(s, InState(s.positions, Ids(s, symbol), PotentialTop), price);
  }

  // ----- Any event -----

  lemma StepKeeps(s: Engine, e: Event)
    requires Inv(s) && OneOpen(s) && Allowed(s, e)
    ensures Inv(Step(s, e)) && OneOpen(Step(s, e)) && Follows(s, Step(s, e))
    ensures FillsWhatWasLocked(s, e) ==> KeepsLedger(s, Step(s, e))
  {
    hide Inv, OneOpen, Follows, KeepsLedger, CandleClosed, Ticker, BuyFilled, OrderClosed, SellFilled, PlacementDue,
         ReplacementDue, CheckForInvalidation;
    match e
    case OnCandle(symbol, c, rising, now) => CandleKeeps(s, symbol, c, rising, now);
    case OnTicker(symbol, price) =>
      TickerKeeps(s, symbol, price);
      GoodIsKept(s, Step(s, e));
    case OnBuyFill(order, price, quantity, now) =>
      BuyFilledKeeps(s, order, price, quantity, now);
      BuyFilledOneOpen(s, order, price, quantity, now);
    case OnOrderClosed(order) =>
      OrderClosedKeeps(s, order);
      GoodIsKept(s, Step(s, e));
    case OnSellFill(order, price) =>
      SellFilledKeeps(s, order, price);
      GoodIsKept(s, Step(s, e));
    case OnPlacementDue(t, now) =>
      PlacementDueKeeps(s, t, now);
      GoodIsKept(s, Step(s, e));
    case OnReplacementDue(id, now) =>
      ReplacementDueKeeps(s, id, now);
      GoodIsKept(s, Step(s, e));
    case OnPriceCheck(symbol, price) =>
      PriceCheckNeverInvalidates(s, symbol, price);
      NothingChanges(s);
      GoodIsKept(s, s);
  }
}
