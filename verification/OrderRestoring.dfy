/** Restoring buy orders: of the stored orders with one price and quantity, one comes back. */
module OrderRestoring {
  import opened Recovery

  datatype Key = Key(price: real, quantity: real)

  function KeyOf(o: DbOrder): Key
  {
    Key(o.price, o.quantity)
  }

  datatype Test = OfKey(key: Key) | IsOpen | IsFilled | Both(first: Test, second: Test)

  predicate Passes(o: DbOrder, t: Test)
  {
    match t
    case OfKey(key) => KeyOf(o) == key
    case IsOpen => o.status != OrderFilled && o.status != OrderCanceled
    case IsFilled => o.status == OrderFilled
    case Both(first, second) => Passes(o, first) && Passes(o, second)
  }

  function Where(orders: seq<DbOrder>, t: Test): seq<DbOrder>
  {
    if orders == [] then []
    else (if Passes(orders[0], t) then [orders[0]] else []) + Where(orders[1..], t)
  }

  lemma {:induction false} WhereMembers(orders: seq<DbOrder>, t: Test)
    ensures forall o :: o in Where(orders, t) <==> o in orders && Passes(o, t)
  {
    if orders != [] {
      WhereMembers(orders[1..], t);
      assert orders == [orders[0]] + orders[1..];
    }
  }

  function Group(orders: seq<DbOrder>, key: Key): seq<DbOrder>
  {
    Where(orders, OfKey(key))
  }

  /** The keys in the order in which they first appear. */
  function Keys(orders: seq<DbOrder>): (keys: seq<Key>)
    ensures forall key :: key in keys <==> exists o <- orders :: KeyOf(o) == key
    ensures forall i, j :: 0 <= i < j < |keys| ==> keys[i] != keys[j]
  {
    if orders == [] then [] else
      var n := |orders| - 1;
      var keys := Keys(orders[..n]);
      assert orders == orders[..n] + [orders[n]];
      if KeyOf(orders[n]) in keys then keys else keys + [KeyOf(orders[n])]
  }

  /** The latest open order, else the latest filled one, else the latest. */
  function Chosen(group: seq<DbOrder>): DbOrder
    requires group != []
  {
    var live := Where(group, IsOpen);
    var filled := Where(group, IsFilled);
    if live != [] then live[|live| - 1] else if filled != [] then filled[|filled| - 1] else group[|group| - 1]
  }

  /** Index `i` is the last at which an order of the list passes a test. */
  predicate Latest(orders: seq<DbOrder>, t: Test, i: int)
  {
    0 <= i < |orders| && Passes(orders[i], t) && forall j :: i < j < |orders| ==> !Passes(orders[j], t)
  }

  lemma WhereNone(t: Test)
    ensures Where([], t) == []
  {
  }

  lemma WhereFirst(x: DbOrder, s: seq<DbOrder>, t: Test)
    ensures Where([x] + s, t) == if Passes(x, t) then [x] + Where(s, t) else Where(s, t)
  {
    assert ([x] + s)[1..] == s;
  }

  lemma {:induction false} WhereTwice(orders: seq<DbOrder>, t: Test, u: Test)
    ensures Where(Where(orders, t), u) == Where(orders, Both(t, u))
    decreases orders
  {
    if orders != [] {
      hide Where;
      var x, rest := orders[0], orders[1..];
      assert orders == [x] + rest;
      WhereTwice(rest, t, u);
      WhereFirst(x, rest, t);
      WhereFirst(x, rest, Both(t, u));
      WhereFirst(x, Where(rest, t), u);
    }
  }

  lemma {:induction false} LastIsLatest(orders: seq<DbOrder>, t: Test) returns (i: nat)
    requires Where(orders, t) != []
    ensures Latest(orders, t, i) && orders[i] == Where(orders, t)[|Where(orders, t)| - 1]
    decreases orders
  {
    hide Where;
    WhereNone(t);
    var x, rest := orders[0], orders[1..];
    assert orders == [x] + rest;
    WhereFirst(x, rest, t);
    if Where(rest, t) == [] {
      WhereMembers(rest, t);
      forall o | o in rest ensures !Passes(o, t) {
        assert Passes(o, t) <==> o in Where(rest, t);
      }
      i := 0;
    } else {
      i := LastIsLatest(rest, t);
      i := i + 1;
    }
  }

  lemma KeyHasOrders(orders: seq<DbOrder>, key: Key)
    requires key in Keys(orders)
    ensures Group(orders, key) != []
  {
    var o :| o in orders && KeyOf(o) == key;
    WhereMembers(orders, OfKey(key));
    assert o in Group(orders, key);
  }

  function ChosenFor(orders: seq<DbOrder>, key: Key): DbOrder
    requires key in Keys(orders)
  {
    KeyHasOrders(orders, key);
    Chosen(Group(orders, key))
  }

  function Restored(orders: seq<DbOrder>): seq<DbOrder>
  {
    var keys := Keys(orders);
    seq(|keys|, i requires 0 <= i < |keys| => ChosenFor(orders, keys[i]))
  }

  lemma ChosenIsInGroup(group: seq<DbOrder>)
    requires group != []
    ensures Chosen(group) in group
  {
    WhereMembers(group, IsOpen);
    WhereMembers(group, IsFilled);
    var live := Where(group, IsOpen);
    var filled := Where(group, IsFilled);
    if live != [] {
      assert live[|live| - 1] in live;
    } else if filled != [] {
      assert filled[|filled| - 1] in filled;
    }
  }

  /** Exactly one restored order for each price and quantity that occurs. */
  lemma OnePerKey(orders: seq<DbOrder>)
    ensures forall i, j :: 0 <= i < j < |Restored(orders)| ==>
      Restored(orders)[i].price != Restored(orders)[j].price ||
        Restored(orders)[i].quantity != Restored(orders)[j].quantity
    ensures forall o <- orders :: exists r <- Restored(orders) :: r.price == o.price && r.quantity == o.quantity
    ensures forall r <- Restored(orders) :: r in orders
  {
    var keys := Keys(orders);
    forall i | 0 <= i < |keys| ensures KeyOf(Restored(orders)[i]) == keys[i] && Restored(orders)[i] in orders {
      KeyHasOrders(orders, keys[i]);
      WhereMembers(orders, OfKey(keys[i]));
      ChosenIsInGroup(Group(orders, keys[i]));
    }
    forall o | o in orders ensures exists r <- Restored(orders) :: r.price == o.price && r.quantity == o.quantity {
      assert KeyOf(o) in keys;
      var i :| 0 <= i < |keys| && keys[i] == KeyOf(o);
      assert Restored(orders)[i] in Restored(orders);
    }
  }

  predicate Occurs(orders: seq<DbOrder>, t: Test)
  {
    exists o <- orders :: Passes(o, t)
  }

  lemma SomeWhere(orders: seq<DbOrder>, t: Test)
    ensures Where(orders, t) != [] <==> Occurs(orders, t)
  {
    WhereMembers(orders, t);
    var found := Where(orders, t);
    if found != [] {
      assert found[0] in found;
    }
  }

  lemma ChosenUnfolds(group: seq<DbOrder>)
    requires group != []
    ensures var live, filled := Where(group, IsOpen), Where(group, IsFilled);
      Chosen(group) ==
        if live != [] then live[|live| - 1]
        else if filled != [] then filled[|filled| - 1]
        else group[|group| - 1]
  {
  }

  /** The latest order of a price and quantity that is neither filled nor cancelled comes back.
      Without one the latest filled one does, and with neither the latest of all. */
  lemma WhatComesBack(orders: seq<DbOrder>, key: Key)
    requires key in Keys(orders)
    ensures var t := if Occurs(orders, Both(OfKey(key), IsOpen)) then Both(OfKey(key), IsOpen)
                     else if Occurs(orders, Both(OfKey(key), IsFilled)) then Both(OfKey(key), IsFilled)
                     else OfKey(key);
      exists i :: Latest(orders, t, i) && ChosenFor(orders, key) == orders[i]
  {
    hide Where, Chosen;
    var any := OfKey(key);
    WhereTwice(orders, any, IsOpen);
    WhereTwice(orders, any, IsFilled);
    SomeWhere(orders, Both(any, IsOpen));
    SomeWhere(orders, Both(any, IsFilled));
    KeyHasOrders(orders, key);
    var t := if Occurs(orders, Both(any, IsOpen)) then Both(any, IsOpen)
             else if Occurs(orders, Both(any, IsFilled)) then Both(any, IsFilled)
             else any;
    ChosenUnfolds(Group(orders, key));
    var i := LastIsLatest(orders, t);
  }

  /** Some live order of the key has no later order of it that is neither filled nor cancelled. */
  predicate LiveLast(orders: seq<DbOrder>, key: Key)
  {
    exists i :: 0 <= i < |orders| && KeyOf(orders[i]) == key && IsLive(orders[i]) &&
      forall j :: i < j < |orders| ==> !Passes(orders[j], Both(OfKey(key), IsOpen))
  }

  lemma PassesOfKey(o: DbOrder, key: Key)
    ensures Passes(o, OfKey(key)) <==> KeyOf(o) == key
    ensures Passes(o, Both(OfKey(key), IsOpen)) <==>
      KeyOf(o) == key && o.status != OrderFilled && o.status != OrderCanceled
    ensures Passes(o, Both(OfKey(key), IsFilled)) <==> KeyOf(o) == key && o.status == OrderFilled
  {
    assert Passes(o, Both(OfKey(key), IsOpen)) <==> Passes(o, OfKey(key)) && Passes(o, IsOpen);
    assert Passes(o, Both(OfKey(key), IsFilled)) <==> Passes(o, OfKey(key)) && Passes(o, IsFilled);
  }

  lemma Comes(orders: seq<DbOrder>, key: Key) returns (i: int)
    requires key in Keys(orders)
    ensures 0 <= i < |orders| && ChosenFor(orders, key) == orders[i] && KeyOf(orders[i]) == key
    ensures Occurs(orders, Both(OfKey(key), IsOpen)) ==> Latest(orders, Both(OfKey(key), IsOpen), i)
  {
    hide Keys, Where, Chosen, Group;
    WhatComesBack(orders, key);
    var t := if Occurs(orders, Both(OfKey(key), IsOpen)) then Both(OfKey(key), IsOpen)
             else if Occurs(orders, Both(OfKey(key), IsFilled)) then Both(OfKey(key), IsFilled)
             else OfKey(key);
    i :| Latest(orders, t, i) && ChosenFor(orders, key) == orders[i];
    PassesOfKey(orders[i], key);
  }

  /** A rejected order passes for open when orders are restored, though not when a position is
      recovered: so a live order comes back exactly when no rejected one of its kind is later. */
  lemma LiveComesBackIff(orders: seq<DbOrder>, key: Key)
    requires key in Keys(orders)
    ensures IsLive(ChosenFor(orders, key)) <==> LiveLast(orders, key)
  {
    hide Keys, Where, Chosen, Group;
    var unsettled := Both(OfKey(key), IsOpen);
    var i := Comes(orders, key);
    if LiveLast(orders, key) {
      var k :| 0 <= k < |orders| && KeyOf(orders[k]) == key && IsLive(orders[k]) &&
        forall j :: k < j < |orders| ==> !Passes(orders[j], unsettled);
      PassesOfKey(orders[k], key);
      assert orders[k] in orders && Occurs(orders, unsettled);
      assert i == k;
    }
    if IsLive(orders[i]) {
      PassesOfKey(orders[i], key);
      assert orders[i] in orders && Passes(orders[i], unsettled);
      assert Occurs(orders, unsettled);
      assert LiveLast(orders, key);
    }
  }

  lemma KeysOfTwo(o: DbOrder, p: DbOrder)
    requires KeyOf(o) == KeyOf(p)
    ensures Keys([o, p]) == [KeyOf(o)]
  {
    assert [o][..0] == [] && [o, p][..1] == [o];
    assert Keys([]) == [] && Keys([o]) == [KeyOf(o)];
  }

  lemma GroupIsWhere(orders: seq<DbOrder>, key: Key)
    ensures Group(orders, key) == Where(orders, OfKey(key))
  {
  }

  lemma BothIn(o: DbOrder, p: DbOrder, t: Test)
    requires Passes(o, t) && Passes(p, t)
    ensures Where([o, p], t) == [o, p]
  {
    hide Where;
    WhereNone(t);
    WhereFirst(p, [], t);
    WhereFirst(o, [p], t);
    assert [o, p] == [o] + [p] && [p] == [p] + [];
  }

  /** A live order that was rejected when it was sent again is hidden by the rejection. */
  lemma RejectionHidesLive(o: DbOrder, rejected: DbOrder)
    requires IsLive(o) && rejected.status == OrderRejected && KeyOf(o) == KeyOf(rejected)
    ensures Restored([o, rejected]) == [rejected] && AnyOpen([o, rejected]) && !AnyOpen(Restored([o, rejected]))
  {
    var orders, key := [o, rejected], KeyOf(o);
    KeysOfTwo(o, rejected);
    hide Keys, Where, Group;
    BothIn(o, rejected, OfKey(key));
    BothIn(o, rejected, IsOpen);
    assert Group(orders, key) == Where(orders, OfKey(key)) by { GroupIsWhere(orders, key); }
    assert ChosenFor(orders, key) == rejected;
    assert Restored(orders) == [ChosenFor(orders, key)];
    assert o in orders;
  }

  // ----- The source's two loops -----

  lemma KeysExtend(orders: seq<DbOrder>, n: nat)
    requires n < |orders|
    ensures Keys(orders[..n + 1]) ==
      if KeyOf(orders[n]) in Keys(orders[..n]) then Keys(orders[..n]) else Keys(orders[..n]) + [KeyOf(orders[n])]
  {
    assert orders[..n + 1][..n] == orders[..n];
  }

  lemma {:induction false} WhereExtend(orders: seq<DbOrder>, x: DbOrder, t: Test)
    ensures Where(orders + [x], t) == if Passes(x, t) then Where(orders, t) + [x] else Where(orders, t)
    decreases orders
  {
    hide Where;
    WhereNone(t);
    WhereFirst(x, [], t);
    if orders == [] {
      assert orders + [x] == [x] + [];
    } else {
      var y, rest := orders[0], orders[1..];
      assert orders == [y] + rest && orders + [x] == [y] + (rest + [x]);
      WhereExtend(rest, x, t);
      WhereFirst(y, rest, t);
      WhereFirst(y, rest + [x], t);
    }
  }

  method Filter(orders: seq<DbOrder>, t: Test) returns (kept: seq<DbOrder>)
    ensures kept == Where(orders, t)
  {
    kept := [];
    for i := 0 to |orders|
      invariant kept == Where(orders[..i], t)
    {
      WhereExtend(orders[..i], orders[i], t);
      assert orders[..i + 1] == orders[..i] + [orders[i]];
      if Passes(orders[i], t) {
        kept := kept + [orders[i]];
      }
    }
    assert orders[..|orders|] == orders;
  }

  lemma GroupsExtend(orders: seq<DbOrder>, x: DbOrder)
    ensures forall k :: Group(orders + [x], k) == if k == KeyOf(x) then Group(orders, k) + [x] else Group(orders, k)
  {
    forall k ensures Group(orders + [x], k) == if k == KeyOf(x) then Group(orders, k) + [x] else Group(orders, k) {
      WhereExtend(orders, x, OfKey(k));
    }
  }

  lemma NoKeys()
    ensures Keys([]) == []
  {
  }

  lemma NewKey(orders: seq<DbOrder>, key: Key)
    requires key !in Keys(orders)
    ensures Group(orders, key) == []
  {
    SomeWhere(orders, OfKey(key));
  }

  method AggregateOrders(orders: seq<DbOrder>) returns (restored: seq<DbOrder>)
    ensures restored == Restored(orders)
  {
    hide Where, Keys, Chosen, Group;
    var keys, groups := [], map[];
    assert Keys([]) == [] by { NoKeys(); }
    for i := 0 to |orders|
      invariant keys == Keys(orders[..i])
      invariant forall key :: key in groups <==> key in keys
      invariant forall key <- keys :: groups[key] == Group(orders[..i], key)
    {
      var key := KeyOf(orders[i]);
      KeysExtend(orders, i);
      assert orders[..i + 1] == orders[..i] + [orders[i]];
      GroupsExtend(orders[..i], orders[i]);
      if key !in groups {
        NewKey(orders[..i], key);
        keys, groups := keys + [key], groups[key := [orders[i]]];
      } else {
        groups := groups[key := groups[key] + [orders[i]]];
      }
    }
    assert orders[..|orders|] == orders;
    restored := [];
    for i := 0 to |keys|
      invariant restored == Restored(orders)[..i]
    {
      var group := groups[keys[i]];
      var live := Filter(group, IsOpen);
      var filled := Filter(group, IsFilled);
      assert group != [] by { KeyHasOrders(orders, keys[i]); }
      var latest := if live != [] then live[|live| - 1]
                    else if filled != [] then filled[|filled| - 1]
                    else group[|group| - 1];
      assert latest == Chosen(group) by { ChosenUnfolds(group); }
      restored := restored + [latest];
    }
  }
}
