/** What a buy position is after a restart, worked out from its orders. */
module Recovery {
  import opened Options
  import opened Money

  datatype OrderStatus = OrderNew | OrderPartiallyFilled | OrderFilled | OrderCanceled | OrderRejected

  datatype DbOrder = DbOrder(id: string, price: real, quantity: real, quantityStable: real, realized: real,
                             status: OrderStatus)

  datatype PositionStatus =
    | PNew | POpen | PPartiallyFilled | PFilled | PCanceled | PClosed | PWaitingParent | PWaitingChild | PRemote

  datatype Side = Long | Short

  datatype State = New | Buying | PartiallyBought | Bought | Selling | PartiallySold | Sold | Closed | WaitingChild

  /** The part of a stored position that recovery reads or writes. */
  datatype Record = Record(quantity: real, realized: real, completeness: real, status: PositionStatus,
                           strategyState: string)

  function TotalQuantity(orders: seq<DbOrder>): real
  {
    if orders == [] then 0.0 else orders[0].quantity + TotalQuantity(orders[1..])
  }

  function TotalRealized(orders: seq<DbOrder>): real
  {
    if orders == [] then 0.0 else orders[0].realized + TotalRealized(orders[1..])
  }

  /** All canceled; the source also asks that none be filled, which follows. */
  predicate AllCanceled(orders: seq<DbOrder>)
  {
    (forall o <- orders :: o.status == OrderCanceled) && !(exists o <- orders :: o.status == OrderFilled)
  }

  predicate AnyRealized(orders: seq<DbOrder>)
  {
    exists o <- orders :: o.realized > 0.0
  }

  /** Still to be filled on the exchange. */
  predicate IsLive(o: DbOrder)
  {
    o.status == OrderNew || o.status == OrderPartiallyFilled
  }

  predicate AnyOpen(orders: seq<DbOrder>)
  {
    exists o <- orders :: IsLive(o)
  }

  /** The position read off its orders; `partlySold` is whether one of its sales was canceled
      after selling a part. */
  function Verified(p: Record, orders: seq<DbOrder>, partlySold: bool): Record
  {
    if orders == [] then p else
      var total, realized := TotalQuantity(orders), TotalRealized(orders);
      var completeness := if total > 0.0 then realized / total else 0.0;
      var p1 := p.(quantity := total, realized := realized, completeness := completeness);
      var p2 := if AllCanceled(orders) then
                  if AnyRealized(orders) then p1.(status := PPartiallyFilled)
                  else p1.(status := PNew, completeness := 0.0)
                else if completeness == 0.0 then p1.(status := if AnyOpen(orders) then POpen else PNew)
                else if completeness >= 1.0 then p1.(status := PFilled)
                else p1.(status := PPartiallyFilled);
      if p2.status == PFilled && partlySold then p2.(strategyState := "PARTIALLY_SOLD") else p2
  }

  function StateOf(status: PositionStatus, completeness: real, side: Side): State
  {
    if completeness >= 1.0 || status == PFilled then (if side == Long then Bought else Sold)
    else if status == PPartiallyFilled || 0.0 < completeness < 1.0 then
      (if side == Long then PartiallyBought else PartiallySold)
    else match status
      case POpen => if side == Long then Buying else Selling
      case PNew => New
      case PCanceled => Closed
      case PClosed => Closed
      case PWaitingParent => WaitingChild
      case PWaitingChild => WaitingChild
      case PRemote => New
  }

  function CompletenessOnLoad(p: Record): real
  {
    if p.status == PFilled && p.completeness < 1.0 then 1.0 else p.completeness
  }

  function BuyState(p: Record): State
  {
    var completeness := CompletenessOnLoad(p);
    var state := StateOf(p.status, completeness, Long);
    var sent := if p.status == PNew && p.strategyState == "BUYING" then Buying
                else if p.status == PNew && p.strategyState == "SELLING" then Selling
                else state;
    if completeness >= 1.0 then Bought else if sent == PartiallySold then PartiallyBought else sent
  }

  // ----- What the recovered state means -----

  predicate Sensible(orders: seq<DbOrder>)
  {
    forall o <- orders :: 0.0 <= o.realized <= o.quantity
  }

  lemma {:induction false} TotalsAreSensible(orders: seq<DbOrder>)
    requires Sensible(orders)
    ensures 0.0 <= TotalRealized(orders) <= TotalQuantity(orders)
    ensures TotalRealized(orders) > 0.0 <==> AnyRealized(orders)
  {
    if orders != [] {
      assert orders[0] in orders;
      TotalsAreSensible(orders[1..]);
      if AnyRealized(orders) && !AnyRealized(orders[1..]) {
        var o :| o in orders && o.realized > 0.0;
        assert o == orders[0] || o in orders[1..];
      }
    }
  }

  lemma ShareOfWhole(share: real, part: real, whole: real)
    requires whole > 0.0 && 0.0 <= part <= whole && share * whole == part
    ensures (share >= 1.0 <==> part == whole) && (share == 0.0 <==> part == 0.0) && 0.0 <= share <= 1.0
  {
    var rest := 1.0 - share;
    assert rest * whole == whole - part;
    SignOfFactor(share, whole);
    SignOfFactor(rest, whole);
  }

  lemma PartOfWhole(part: real, whole: real)
    requires whole > 0.0 && 0.0 <= part <= whole
    ensures part / whole >= 1.0 <==> part == whole
    ensures part / whole == 0.0 <==> part == 0.0
    ensures 0.0 <= part / whole <= 1.0
  {
    ShareOfWhole(part / whole, part, whole);
  }

  /** BOUGHT exactly when everything was realized, PARTIALLY_BOUGHT exactly when something but
      not everything was; with nothing realized the state tells whether an order is out. */
  lemma RecoveredState(p: Record, orders: seq<DbOrder>, partlySold: bool)
    requires orders != [] && Sensible(orders) && TotalQuantity(orders) > 0.0
    ensures BuyState(Verified(p, orders, partlySold)) == Bought <==> TotalRealized(orders) == TotalQuantity(orders)
    ensures BuyState(Verified(p, orders, partlySold)) == PartiallyBought <==>
      0.0 < TotalRealized(orders) < TotalQuantity(orders)
    ensures TotalRealized(orders) == 0.0 ==>
      BuyState(Verified(p, orders, partlySold)) ==
        if AnyOpen(orders) && !AllCanceled(orders) then Buying
        else if p.strategyState == "BUYING" then Buying
        else if p.strategyState == "SELLING" then Selling
        else New
  {
    hide TotalRealized, TotalQuantity, AllCanceled, AnyRealized, AnyOpen;
    TotalsAreSensible(orders);
    var total, realized := TotalQuantity(orders), TotalRealized(orders);
    PartOfWhole(realized, total);
    assert Verified(p, orders, partlySold).completeness == realized / total;
  }

  /** What is stored: the two sums, the share that is realized, and the status these and the orders'
      own statuses give; a whole position whose sale was cancelled half-way keeps a note of it. */
  lemma StoredTotals(p: Record, orders: seq<DbOrder>, partlySold: bool)
    requires orders != [] && Sensible(orders) && TotalQuantity(orders) > 0.0
    ensures var v, total, realized := Verified(p, orders, partlySold), TotalQuantity(orders), TotalRealized(orders);
      v.quantity == total && v.realized == realized && v.completeness * total == realized &&
      (v.status == PFilled <==> realized == total && exists o <- orders :: o.status != OrderCanceled) &&
      (v.status == PPartiallyFilled <==>
         0.0 < realized && (realized < total || forall o <- orders :: o.status == OrderCanceled)) &&
      (v.status == POpen <==> realized == 0.0 && exists o <- orders :: IsLive(o)) &&
      (v.status == PNew <==> realized == 0.0 && forall o <- orders :: !IsLive(o)) &&
      v.strategyState == if v.status == PFilled && partlySold then "PARTIALLY_SOLD" else p.strategyState
  {
    hide TotalRealized, TotalQuantity, AnyRealized;
    TotalsAreSensible(orders);
    var total, realized := TotalQuantity(orders), TotalRealized(orders);
    PartOfWhole(realized, total);
    assert realized / total * total == realized;
    assert orders[0] in orders;
  }

  /** Recovering twice from the same orders gives what recovering once gave. */
  lemma VerifyingTwice(p: Record, orders: seq<DbOrder>, partlySold: bool)
    ensures Verified(Verified(p, orders, partlySold), orders, partlySold) == Verified(p, orders, partlySold)
  {
  }

  /** What a stored position loads as: a filled one is whole whatever completeness was stored, and a new
      one whose order had gone out goes on as it was. */
  lemma LoadedState(p: Record)
    ensures BuyState(p) == Bought <==> p.status == PFilled || p.completeness >= 1.0
    ensures BuyState(p) == PartiallyBought <==>
      p.status != PFilled && p.completeness < 1.0 &&
      (p.status == PPartiallyFilled ||
       (0.0 < p.completeness && !(p.status == PNew && (p.strategyState == "BUYING" || p.strategyState == "SELLING"))))
    ensures p.status == PFilled ==> CompletenessOnLoad(p) >= 1.0
    ensures p.status != PFilled || p.completeness >= 1.0 ==> CompletenessOnLoad(p) == p.completeness
  {
  }

  // ----- The stored position as an object -----

  class Position {
    var quantity: real
    var realized: real
    var completeness: real
    var status: PositionStatus
    var strategyState: string

    constructor (p: Record)
      ensures View() == p
    {
      quantity, realized, completeness, status, strategyState := p.quantity, p.realized, p.completeness, p.status,
        p.strategyState;
    }

    function View(): Record
      reads this
    {
      Record(quantity, realized, completeness, status, strategyState)
    }

    method UpdateFromOrders(orders: seq<DbOrder>, partlySold: bool)
      modifies this
      ensures View() == Verified(old(View()), orders, partlySold)
    {
      if orders == [] {
        return;
      }
      var total, done := 0.0, 0.0;
      for i := 0 to |orders|
        invariant total + TotalQuantity(orders[i..]) == TotalQuantity(orders)
        invariant done + TotalRealized(orders[i..]) == TotalRealized(orders)
      {
        assert orders[i..][1..] == orders[i + 1..];
        total, done := total + orders[i].quantity, done + orders[i].realized;
      }
      quantity, realized := total, done;
      completeness := if total > 0.0 then done / total else 0.0;
      if AllCanceled(orders) {
        if AnyRealized(orders) {
          status := PPartiallyFilled;
        } else {
          status, completeness := PNew, 0.0;
        }
      } else if completeness == 0.0 {
        status := if AnyOpen(orders) then POpen else PNew;
      } else if completeness >= 1.0 {
        status := PFilled;
      } else {
        status := PPartiallyFilled;
      }
      if status == PFilled && partlySold {
        strategyState := "PARTIALLY_SOLD";
      }
    }

    method ConvertToBuyData() returns (state: State)
      modifies this`completeness
      ensures state == BuyState(old(View()))
      ensures completeness == CompletenessOnLoad(old(View()))
    {
      if status == PFilled && completeness < 1.0 {
        completeness := 1.0;
      }
      state := StateOf(status, completeness, Long);
      if status == PNew && strategyState == "BUYING" {
        state := Buying;
      } else if status == PNew && strategyState == "SELLING" {
        state := Selling;
      }
      if completeness >= 1.0 {
        state := Bought;
      } else if state == PartiallySold {
        state := PartiallyBought;
      }
    }
  }
}
