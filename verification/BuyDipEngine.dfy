/**
 What each event does to the whole Buy Dip engine: the budget, the positions, the map
 from live orders to positions and the delayed placements still to run. Every function
 follows the branches of the strategy or of its invalidation handler.
 */
module BuyDipEngine {
  import opened Options
  import opened Money
  import opened Budgets
  import opened BuyDipPositions

  datatype Config = Config(
    distances: seq<real>,
    minDelta: real,
    cooldown: real,
    sellPlacement: real,
    sellCancellation: real)
  {
    /** What validation and sorting of the configuration guarantee, and a non-negative delta. */
    ghost predicate Valid()
    {
      && distances != []
      && (forall i :: 0 <= i < |distances| ==> 0.0 < distances[i] < 100.0)
      && (forall i, j :: 0 <= i < j < |distances| ==> distances[i] <= distances[j])
      && minDelta >= 0.0
    }
  }

  datatype Candle = Candle(high: real, timestamp: Option<int>)

  /** A placement that sleeps out the cooldown before it runs. */
  datatype Task = Task(owner: PositionId, price: real, id: OrderId)

  datatype Engine = Engine(
    config: Config,
    budget: Budget,
    positions: map<PositionId, Position>,
    symbolIds: map<string, seq<PositionId>>,
    orderOwner: map<OrderId, PositionId>,
    tasks: multiset<Task>,
    scheduled: set<PositionId>)

  function Start(config: Config, budget: real, percentage: real): Engine
  {
    Engine(config, Budget(budget, 0.0, percentage, 10.0), map[], map[], map[], multiset{}, {})
  }

  function LevelPrice(top: real, distance: real): real
  {
    top * (1.0 - distance / 100.0)
  }

  function Milliseconds(now: real): int
  {
    (now * 1000.0).Floor
  }

  function Ids(s: Engine, symbol: string): seq<PositionId>
  {
    if symbol in s.symbolIds then s.symbolIds[symbol] else []
  }

  /** The positions among `ids` that are in state `st`, in order. */
  function InState(ps: map<PositionId, Position>, ids: seq<PositionId>, st: PositionState): (r: seq<PositionId>)
    ensures forall id :: id in r <==> id in ids && id in ps && ps[id].state == st
  {
    if ids == [] then []
    else if ids[0] in ps && ps[ids[0]].state == st then [ids[0]] + InState(ps, ids[1..], st)
    else InState(ps, ids[1..], st)
  }

  function Put(s: Engine, id: PositionId, p: Position): Engine
  {
    s.(positions := s.positions[id := p])
  }

  function AddPosition(s: Engine, id: PositionId, p: Position): Engine
  {
    s.(positions := s.positions[id := p], symbolIds := s.symbolIds[p.symbol := Ids(s, p.symbol) + [id]])
  }

  // ----- Buy orders -----

  function PlaceOrder(s: Engine, id: PositionId, price: real, order: OrderId): Engine
  {
    if id !in s.positions || !CanPlace(s.positions[id]) then s
    else match OrderSize(s.budget)
      case None => s
      case Some(size) =>
        var p := s.positions[id];
        s.(budget := Lock(s.budget, size),
           positions := s.positions[id := PlaceBuy(p, order, price, Ratio(size, price), p.nextLevel)],
           orderOwner := s.orderOwner[order := id])
  }

  /** The exchange reports an order cancelled or expired. */
  function OrderClosed(s: Engine, order: OrderId): Engine
  {
    if order !in s.orderOwner || s.orderOwner[order] !in s.positions then s
    else
      var id := s.orderOwner[order];
      var p := s.positions[id];
      match PendingOrder(p)
      case None => s
      case Some(o) =>
        if o.id != order then s
        else match Cancel(p, order)
          case None => s
          case Some(p') =>
            s.(budget := Release(s.budget, Cost(o.price, o.quantity), 0.0),
               positions := s.positions[id := p'],
               orderOwner := s.orderOwner - {order})
  }

  /** The strategy itself gives up a position's pending order. */
  function ReleasePending(s: Engine, id: PositionId): Engine
  {
    if id !in s.positions then s
    else match PendingOrder(s.positions[id])
      case None => s
      case Some(o) =>
        s.(budget := Release(s.budget, Cost(o.price, o.quantity), 0.0),
           positions := s.positions[id := DropPending(s.positions[id])],
           orderOwner := s.orderOwner - {o.id})
  }

  // ----- New highs -----

  function PercentGain(from: real, to: real): real
  {
    Ratio(to - from, from) * 100.0
  }

  function Significant(c: Config, p: Position, high: real): bool
  {
    p.topPrice.None? || PercentGain(p.topPrice.value, high) >= c.minDelta
  }

  function Raised(p: Position, high: real, timestamp: Option<int>, until: real): Position
  {
    p.(topPrice := Some(high), justInvalidated := true, lastInvalidation := timestamp, cooldownUntil := Some(until))
  }

  function PlaceReplacement(s: Engine, id: PositionId, now: real): Engine
  {
    if id !in s.positions || s.positions[id].topPrice.None? then s
    else
      var p := s.positions[id];
      var distance := if s.config.distances == [] then 0.0 else s.config.distances[0];
      PlaceOrder(s, id, LevelPrice(p.topPrice.value, distance), DcaAt(id, p.nextLevel, Milliseconds(now)))
  }

  /** The handler releases a pending order only when its amount is positive. */
  function HandlerCancel(s: Engine, id: PositionId): Engine
  {
    if id !in s.positions then s
    else match PendingOrder(s.positions[id])
      case None => s
      case Some(o) =>
        var amount := Cost(o.price, o.quantity);
        ReleasePending(s, id).(budget := if amount > 0.0 then Release(s.budget, amount, 0.0) else s.budget)
  }

  function RaiseTop(s: Engine, id: PositionId, high: real, timestamp: Option<int>, now: real): Engine
  {
    if id !in s.positions then s
    else Put(s, id, Raised(s.positions[id], high, timestamp, now + s.config.cooldown))
  }

  function Invalidate(s: Engine, id: PositionId, high: real, timestamp: Option<int>, now: real): Engine
  {
    if id !in s.positions || !Significant(s.config, s.positions[id], high) then s
    else
      var moved := RaiseTop(HandlerCancel(s, id), id, high, timestamp, now);
      if s.positions[id].nextLevel == 0 then PlaceReplacement(moved, id, now)
      else moved.(scheduled := moved.scheduled + {id})
  }

  function HasTop(p: Position): bool
  {
    p.topPrice.Some? && p.topPrice.value != 0.0
  }

  function InvalidateAll(s: Engine, ids: seq<PositionId>, high: real, timestamp: Option<int>, now: real): Engine
    decreases |ids|
  {
    if ids == [] then s
    else if ids[0] in s.positions && HasTop(s.positions[ids[0]]) then
      InvalidateAll(Invalidate(s, ids[0], high, timestamp, now), ids[1..], high, timestamp, now)
    else InvalidateAll(s, ids[1..], high, timestamp, now)
  }

  function Beaten(ps: map<PositionId, Position>, ids: seq<PositionId>, high: real): bool
  {
    exists i :: 0 <= i < |ids| && ids[i] in ps && HasTop(ps[ids[i]]) && high > ps[ids[i]].topPrice.value
  }

  function NewHigh(s: Engine, symbol: string, c: Candle, now: real): Engine
  {
    var ids := InState(s.positions, Ids(s, symbol), PotentialTop);
    if Beaten(s.positions, ids, c.high) then InvalidateAll(s, ids, c.high, c.timestamp, now) else s
  }

  // ----- Rising pattern -----

  /** Put the position at `high` and place its first order. */
  function OpenAtTop(s: Engine, id: PositionId, high: real): Engine
  {
    if id !in s.positions then s
    else
      var s1 := Put(s, id, WithTop(s.positions[id], high));
      if s.config.distances == [] then s1
      else PlaceOrder(s1, id, LevelPrice(high, s.config.distances[0]), Dca(id, 0))
  }

  /** What a rising pattern leads to; a candle without a timestamp raises on the last branch. */
  datatype RisingOutcome = NoBudget | Promote(id: PositionId) | WaitForFill | NoTimestamp | OpenNew(id: PositionId)

  predicate AnyAtFirstLevel(ps: map<PositionId, Position>, ids: seq<PositionId>)
  {
    exists i :: 0 <= i < |ids| && ids[i] in ps && ps[ids[i]].nextLevel == 0
  }

  function RisingDecision(s: Engine, symbol: string, c: Candle): RisingOutcome
  {
    var watching := InState(s.positions, Ids(s, symbol), Watching);
    var tops := InState(s.positions, Ids(s, symbol), PotentialTop);
    if OrderSize(s.budget).None? then NoBudget
    else if watching != [] then Promote(watching[0])
    else if AnyAtFirstLevel(s.positions, tops) then WaitForFill
    else if c.timestamp.None? then NoTimestamp
    else OpenNew(TopId(symbol, c.timestamp.value))
  }

  function Rising(s: Engine, symbol: string, c: Candle): Engine
  {
    match RisingDecision(s, symbol, c)
    case Promote(id) => OpenAtTop(s, id, c.high)
    case OpenNew(id) => OpenAtTop(AddPosition(s, id, Fresh(symbol)), id, c.high)
    case _ => s
  }

  // ----- Delayed placements -----

  function ReadyToSchedule(p: Position, c: Candle, now: real): bool
  {
    && HasTop(p)
    && CanPlace(p)
    && p.nextLevel == 0
    && !(p.lastInvalidation.Some? && c.timestamp.Some? && c.timestamp.value <= p.lastInvalidation.value)
    && !p.justInvalidated
    && !(p.cooldownUntil.Some? && now < p.cooldownUntil.value)
  }

  function ScheduleOne(s: Engine, id: PositionId, c: Candle, now: real): Engine
  {
    if id in s.positions && ReadyToSchedule(s.positions[id], c, now) && s.config.distances != [] then
      var p := s.positions[id];
      s.(tasks := s.tasks + multiset{Task(id, LevelPrice(p.topPrice.value, s.config.distances[0]),
                                          Dca(id, p.nextLevel))})
    else s
  }

  function ScheduleAll(s: Engine, ids: seq<PositionId>, c: Candle, now: real): Engine
    decreases |ids|
  {
    if ids == [] then s else ScheduleAll(ScheduleOne(s, ids[0], c, now), ids[1..], c, now)
  }

  function ClearFlags(s: Engine, ids: seq<PositionId>): Engine
    decreases |ids|
  {
    if ids == [] then s
    else if ids[0] in s.positions then
      ClearFlags(Put(s, ids[0], s.positions[ids[0]].(justInvalidated := false)), ids[1..])
    else ClearFlags(s, ids[1..])
  }

  function CandleClosed(s: Engine, symbol: string, c: Candle, rising: bool, now: real): Engine
  {
    var s1 := NewHigh(s, symbol, c, now);
    if rising && RisingDecision(s1, symbol, c).NoTimestamp? then s1
    else
      var s2 := if rising then Rising(s1, symbol, c) else s1;
      var s3 := ScheduleAll(s2, InState(s2.positions, Ids(s2, symbol), PotentialTop), c, now);
      ClearFlags(s3, Ids(s3, symbol))
  }

  /** A delayed placement of `process_candle` wakes up; it does not look at the state. */
  function PlacementDue(s: Engine, t: Task, now: real): Engine
  {
    var s1 := s.(tasks := s.tasks - multiset{t});
    if t !in s.tasks then s
    else if t.owner !in s.positions || !CanPlace(s.positions[t.owner]) then s1
    else
      var cooldown := s.positions[t.owner].cooldownUntil;
      if cooldown.Some? && now < cooldown.value then s1 else PlaceOrder(s1, t.owner, t.price, t.id)
  }

  /** A delayed replacement of the invalidation handler wakes up; it rechecks everything. */
  function ReplacementDue(s: Engine, id: PositionId, now: real): Engine
  {
    var s1 := s.(scheduled := s.scheduled - {id});
    if id in s.positions && s.positions[id].state == PotentialTop && CanPlace(s.positions[id]) &&
      HasTop(s.positions[id])
    then PlaceReplacement(s1, id, now)
    else s1
  }

  // ----- Fills -----

  function PlaceholderId(s: Engine, symbol: string, now: real): PositionId
  {
    if BaseId(symbol) in s.positions then StampedId(symbol, Milliseconds(now)) else BaseId(symbol)
  }

  function CreatePlaceholder(s: Engine, symbol: string, now: real): Engine
  {
    if InState(s.positions, Ids(s, symbol), Watching) != [] then s
    else AddPosition(s, PlaceholderId(s, symbol, now), Fresh(symbol))
  }

  function PlaceNextLevel(s: Engine, id: PositionId): Engine
  {
    if id !in s.positions then s
    else
      var p := s.positions[id];
      if p.state == Active && CanPlace(p) && p.nextLevel < |s.config.distances| && p.confirmedTop.Some?
      then PlaceOrder(s, id, LevelPrice(p.confirmedTop.value, s.config.distances[p.nextLevel]), Dca(id, p.nextLevel))
      else s
  }

  function BookFill(s: Engine, order: OrderId, id: PositionId, p: Position): Engine
  {
    Put(s, id, p).(orderOwner := s.orderOwner - {order})
  }

  function BuyFilled(s: Engine, order: OrderId, price: real, quantity: real, now: real): Engine
  {
    if order !in s.orderOwner || s.orderOwner[order] !in s.positions then s
    else
      var id := s.orderOwner[order];
      var p := s.positions[id];
      match Fill(p, order, price, quantity)
      case None => s
      case Some(p') =>
        var s1 := BookFill(s, order, id, p');
        var s2 := if p.state == PotentialTop && p'.state == Active then CreatePlaceholder(s1, p.symbol, now) else s1;
        PlaceNextLevel(s2, id)
  }

  /** The last step of a sell fill: the position closes and its money comes back. */
  function CloseWithSale(s: Engine, order: OrderId, id: PositionId, price: real): Engine
  {
    if id !in s.positions then s
    else
      var p := s.positions[id];
      match SellFill(p, order, price, p.totalQuantity)
      case None => s
      case Some(p') =>
        s.(positions := s.positions[id := p'],
           budget := Release(s.budget, p.totalInvested, Cost(price, p.totalQuantity) - p.totalInvested),
           orderOwner := s.orderOwner - {order})
  }

  /** A sell fill first gives up the pending buy, even when the id then turns out wrong. */
  function SellFilled(s: Engine, order: OrderId, price: real): Engine
  {
    if order !in s.orderOwner || s.orderOwner[order] !in s.positions then s
    else
      var id := s.orderOwner[order];
      CloseWithSale(ReleasePending(s, id), order, id, price)
  }

  // ----- Sell order management -----

  function SellPrice(p: Position): Option<real>
  {
    if p.confirmedTop.Some? && p.confirmedTop.value != 0.0 then p.confirmedTop else p.averageEntry
  }

  function PlaceSellOrder(s: Engine, id: PositionId, order: OrderId): Engine
  {
    if id !in s.positions then s
    else
      var p := s.positions[id];
      if p.state != Active || p.totalQuantity <= 0.0 || SellPrice(p).None? then s
      else
        Put(s, id, PlaceSell(p, order, SellPrice(p).value, p.totalQuantity)).(orderOwner := s.orderOwner[order := id])
  }

  function CancelSellOrder(s: Engine, order: OrderId): Engine
  {
    if order !in s.orderOwner || s.orderOwner[order] !in s.positions then s
    else
      var id := s.orderOwner[order];
      Put(s, id, s.positions[id].(sellOrder := None)).(orderOwner := s.orderOwner - {order})
  }

  function DistanceFromTop(top: real, price: real): real
  {
    Ratio(top - price, top) * 100.0
  }

  function ManageSell(s: Engine, id: PositionId, price: real): Engine
  {
    if id !in s.positions then s
    else
      var p := s.positions[id];
      if p.confirmedTop.None? || p.confirmedTop.value == 0.0 then s
      else if p.sellOrder.None? then
        if DistanceFromTop(p.confirmedTop.value, price) <= s.config.sellPlacement
        then PlaceSellOrder(s, id, SellOf(id)) else s
      else
        if DistanceFromTop(p.confirmedTop.value, price) >= s.config.sellCancellation
        then CancelSellOrder(s, p.sellOrder.value.id) else s
  }

  function ManageSells(s: Engine, ids: seq<PositionId>, price: real): Engine
    decreases |ids|
  {
    if ids == [] then s else ManageSells(ManageSell(s, ids[0], price), ids[1..], price)
  }

  function Ticker(s: Engine, symbol: string, price: real): Engine
  {
    ManageSells(s, InState(s.positions, Ids(s, symbol), Active), price)
  }

  /** The five-second check compares the price with the confirmed top. */
  function CheckAll(s: Engine, ids: seq<PositionId>, price: real): Engine
    decreases |ids|
  {
    if ids == [] then s
    else if ids[0] in s.positions && s.positions[ids[0]].confirmedTop.Some?
            && s.positions[ids[0]].confirmedTop.value != 0.0 && price > s.positions[ids[0]].confirmedTop.value
    then CheckAll(Put(s, ids[0], s.positions[ids[0]].(state := Invalidated)), ids[1..], price)
    else CheckAll(s, ids[1..], price)
  }

  function CheckForInvalidation(s: Engine, symbol: string, price: real): Engine
  {
    CheckAll(s, InState(s.positions, Ids(s, symbol), PotentialTop), price)
  }

  // ----- Events -----

  datatype Event =
    | OnCandle(symbol: string, candle: Candle, rising: bool, now: real)
    | OnTicker(symbol: string, price: real)
    | OnBuyFill(order: OrderId, price: real, quantity: real, now: real)
    | OnOrderClosed(order: OrderId)
    | OnSellFill(order: OrderId, price: real)
    | OnPlacementDue(task: Task, now: real)
    | OnReplacementDue(owner: PositionId, now: real)
    | OnPriceCheck(symbol: string, price: real)

  function Step(s: Engine, e: Event): Engine
  {
    match e
    case OnCandle(symbol, candle, rising, now) => CandleClosed(s, symbol, candle, rising, now)
    case OnTicker(symbol, price) => Ticker(s, symbol, price)
    case OnBuyFill(order, price, quantity, now) => BuyFilled(s, order, price, quantity, now)
    case OnOrderClosed(order) => OrderClosed(s, order)
    case OnSellFill(order, price) => SellFilled(s, order, price)
    case OnPlacementDue(task, now) => PlacementDue(s, task, now)
    case OnReplacementDue(owner, now) => ReplacementDue(s, owner, now)
    case OnPriceCheck(symbol, price) => CheckForInvalidation(s, symbol, price)
  }

  function Run(s: Engine, events: seq<Event>): Engine
    decreases |events|
  {
    if events == [] then s else Run(Step(s, events[0]), events[1..])
  }
}
