/** Locking, unlocking and account synchronisation of the lots of a coin. */
module LotLocks {
  import opened Options
  import opened Money
  import opened Lots

  function Available(lots: seq<Lot>, coin: string): real
  {
    if lots == [] then 0.0 else (if lots[0].coin == coin then lots[0].available else 0.0) + Available(lots[1..], coin)
  }

  function Locked(lots: seq<Lot>, coin: string): real
  {
    if lots == [] then 0.0 else (if lots[0].coin == coin then lots[0].locked else 0.0) + Locked(lots[1..], coin)
  }

  function Held(lots: seq<Lot>, coin: string): real
  {
    if lots == [] then 0.0 else (if lots[0].coin == coin then lots[0].quantity else 0.0) + Held(lots[1..], coin)
  }

  // ----- Moving quantities between available and locked -----

  function Move(l: Lot, amount: real): Lot
  {
    l.(available := l.available - amount, locked := l.locked + amount)
  }

  /** Lock from each lot of the coin in turn until nothing is left to lock. */
  function LockFrom(lots: seq<Lot>, coin: string, left: real): seq<Lot>
    decreases lots
  {
    if lots == [] || left <= 0.0 then lots
    else if lots[0].coin == coin && lots[0].available > 0.0 then
      var amount := Min(lots[0].available, left);
      [Move(lots[0], amount)] + LockFrom(lots[1..], coin, left - amount)
    else [lots[0]] + LockFrom(lots[1..], coin, left)
  }

  function UnlockFrom(lots: seq<Lot>, coin: string, left: real): seq<Lot>
    decreases lots
  {
    if lots == [] || left <= 0.0 then lots
    else if lots[0].coin == coin && lots[0].locked > 0.0 then
      var amount := Min(lots[0].locked, left);
      [Move(lots[0], -amount)] + UnlockFrom(lots[1..], coin, left - amount)
    else [lots[0]] + UnlockFrom(lots[1..], coin, left)
  }

  /** All or nothing: too little available leaves every lot as it is. */
  function Lock(lots: seq<Lot>, coin: string, amount: real): seq<Lot>
  {
    if Available(lots, coin) < amount then lots else LockFrom(lots, coin, amount)
  }

  /** At most what is locked is unlocked. */
  function Unlock(lots: seq<Lot>, coin: string, amount: real): seq<Lot>
  {
    UnlockFrom(lots, coin, if Locked(lots, coin) < amount then Locked(lots, coin) else amount)
  }

  predicate Sound(lots: seq<Lot>)
  {
    forall l <- lots :: l.available >= 0.0 && l.locked >= 0.0
  }

  /** Only the split of each lot changed. */
  predicate SameLots(before: seq<Lot>, after: seq<Lot>)
  {
    |before| == |after| &&
    forall i :: 0 <= i < |before| ==>
      after[i] == before[i].(available := after[i].available, locked := after[i].locked) &&
      after[i].available + after[i].locked == before[i].available + before[i].locked
  }

  lemma SamePrepend(x: Lot, y: Lot, before: seq<Lot>, after: seq<Lot>)
    requires SameLots(before, after)
    requires y == x.(available := y.available, locked := y.locked) && y.available + y.locked == x.available + x.locked
    ensures SameLots([x] + before, [y] + after)
  {
  }

  lemma TotalsPrepend(x: Lot, s: seq<Lot>, coin: string)
    ensures Available([x] + s, coin) == (if x.coin == coin then x.available else 0.0) + Available(s, coin)
    ensures Locked([x] + s, coin) == (if x.coin == coin then x.locked else 0.0) + Locked(s, coin)
    ensures Sound([x] + s) <==> x.available >= 0.0 && x.locked >= 0.0 && Sound(s)
  {
    assert ([x] + s)[1..] == s;
    if Sound([x] + s) {
      assert x in [x] + s;
      forall l | l in s ensures l.available >= 0.0 && l.locked >= 0.0 {
        assert l in [x] + s;
      }
    }
  }

  lemma {:induction false} TotalsBounds(lots: seq<Lot>, coin: string)
    requires Sound(lots)
    ensures Available(lots, coin) >= 0.0 && Locked(lots, coin) >= 0.0
  {
    if lots != [] {
      assert lots[0] in lots;
      TotalsBounds(lots[1..], coin);
    }
  }

  lemma NothingHeld(coin: string)
    ensures Available([], coin) == 0.0 && Locked([], coin) == 0.0
  {
  }

  lemma {:induction false} LockFromMoves(lots: seq<Lot>, coin: string, left: real, other: string)
    requires Sound(lots) && left <= Available(lots, coin)
    ensures SameLots(lots, LockFrom(lots, coin, left)) && Sound(LockFrom(lots, coin, left))
    ensures Available(LockFrom(lots, coin, left), other)
         == Available(lots, other) - if left > 0.0 && other == coin then left else 0.0
    ensures Locked(LockFrom(lots, coin, left), other)
         == Locked(lots, other) + if left > 0.0 && other == coin then left else 0.0
    decreases lots
  {
    hide Available, Locked, Sound;
    NothingHeld(coin);
    if lots != [] && left > 0.0 {
      var l := lots[0];
      var amount := if l.coin == coin && l.available > 0.0 then Min(l.available, left) else 0.0;
      assert lots == [l] + lots[1..];
      TotalsPrepend(l, lots[1..], coin);
      TotalsPrepend(l, lots[1..], other);
      TotalsBounds(lots[1..], coin);
      LockFromMoves(lots[1..], coin, left - amount, other);
      var rest := LockFrom(lots[1..], coin, left - amount);
      SamePrepend(l, Move(l, amount), lots[1..], rest);
      TotalsPrepend(Move(l, amount), rest, other);
    }
  }

  lemma {:induction false} UnlockFromMoves(lots: seq<Lot>, coin: string, left: real, other: string)
    requires Sound(lots) && left <= Locked(lots, coin)
    ensures SameLots(lots, UnlockFrom(lots, coin, left)) && Sound(UnlockFrom(lots, coin, left))
    ensures Available(UnlockFrom(lots, coin, left), other)
         == Available(lots, other) + if left > 0.0 && other == coin then left else 0.0
    ensures Locked(UnlockFrom(lots, coin, left), other)
         == Locked(lots, other) - if left > 0.0 && other == coin then left else 0.0
    decreases lots
  {
    hide Available, Locked, Sound;
    NothingHeld(coin);
    if lots != [] && left > 0.0 {
      var l := lots[0];
      var amount := if l.coin == coin && l.locked > 0.0 then Min(l.locked, left) else 0.0;
      assert lots == [l] + lots[1..];
      TotalsPrepend(l, lots[1..], coin);
      TotalsPrepend(l, lots[1..], other);
      TotalsBounds(lots[1..], coin);
      UnlockFromMoves(lots[1..], coin, left - amount, other);
      var rest := UnlockFrom(lots[1..], coin, left - amount);
      SamePrepend(l, Move(l, -amount), lots[1..], rest);
      TotalsPrepend(Move(l, -amount), rest, other);
    }
  }

  /** A lock moves all of the amount or none of it, and only for its own coin. */
  lemma LockIsAllOrNothing(lots: seq<Lot>, coin: string, amount: real, other: string)
    requires Sound(lots) && amount >= 0.0
    ensures var after := Lock(lots, coin, amount);
      if amount <= Available(lots, coin) && other == coin then
        Available(after, coin) == Available(lots, coin) - amount && Locked(after, coin) == Locked(lots, coin) + amount
      else Available(after, other) == Available(lots, other) && Locked(after, other) == Locked(lots, other)
    ensures Available(lots, coin) < amount ==> Lock(lots, coin, amount) == lots
  {
    if amount <= Available(lots, coin) {
      LockFromMoves(lots, coin, amount, other);
    }
  }

  lemma UnlockIsCapped(lots: seq<Lot>, coin: string, amount: real, other: string)
    requires Sound(lots) && amount >= 0.0
    ensures var after := Unlock(lots, coin, amount);
      var moved := if other == coin then Min(amount, Locked(lots, coin)) else 0.0;
      Available(after, other) == Available(lots, other) + moved && Locked(after, other) == Locked(lots, other) - moved
  {
    TotalsBounds(lots, coin);
    UnlockFromMoves(lots, coin, if Locked(lots, coin) < amount then Locked(lots, coin) else amount, other);
  }

  // ----- Any sequence of locks and cancels -----

  datatype Request = LockUp(coin: string, amount: real) | Cancel(coin: string, amount: real)

  function Apply(lots: seq<Lot>, r: Request): seq<Lot>
  {
    match r
    case LockUp(coin, amount) => Lock(lots, coin, amount)
    case Cancel(coin, amount) => Unlock(lots, coin, amount)
  }

  function ApplyAll(lots: seq<Lot>, requests: seq<Request>): seq<Lot>
    decreases requests
  {
    if requests == [] then lots else ApplyAll(Apply(lots, requests[0]), requests[1..])
  }

  lemma ApplyKeeps(lots: seq<Lot>, r: Request)
    requires Sound(lots)
    ensures SameLots(lots, Apply(lots, r)) && Sound(Apply(lots, r))
  {
    match r
    case LockUp(coin, amount) =>
      if amount <= Available(lots, coin) {
        LockFromMoves(lots, coin, amount, coin);
      }
    case Cancel(coin, amount) =>
      UnlockFromMoves(lots, coin, if Locked(lots, coin) < amount then Locked(lots, coin) else amount, coin);
  }

  /** Every lot keeps its quantity and the sum of its two parts, and neither part is ever negative. */
  lemma {:induction false} RequestsKeepLots(lots: seq<Lot>, requests: seq<Request>)
    requires Sound(lots)
    ensures SameLots(lots, ApplyAll(lots, requests)) && Sound(ApplyAll(lots, requests))
    decreases requests
  {
    hide Apply, Sound;
    if requests != [] {
      ApplyKeeps(lots, requests[0]);
      RequestsKeepLots(Apply(lots, requests[0]), requests[1..]);
    }
  }

  predicate Elsewhere(requests: seq<Request>, coin: string)
  {
    forall r <- requests :: r.coin != coin && r.amount >= 0.0
  }

  lemma {:induction false} ElsewhereKeepsTotals(lots: seq<Lot>, requests: seq<Request>, coin: string)
    requires Sound(lots) && Elsewhere(requests, coin)
    ensures Available(ApplyAll(lots, requests), coin) == Available(lots, coin)
    ensures Locked(ApplyAll(lots, requests), coin) == Locked(lots, coin)
    decreases requests
  {
    hide Lock, Unlock, Available, Locked, Sound;
    if requests != [] {
      var r := requests[0];
      assert r in requests;
      ApplyKeeps(lots, r);
      match r {
        case LockUp(c, amount) => LockIsAllOrNothing(lots, c, amount, coin);
        case Cancel(c, amount) => UnlockIsCapped(lots, c, amount, coin);
      }
      ElsewhereKeepsTotals(Apply(lots, r), requests[1..], coin);
    }
  }

  /** A lock that succeeds, whatever happens to other coins, and a cancel of the same amount
      bring the coin's totals back. */
  lemma CancelUndoesLock(lots: seq<Lot>, coin: string, amount: real, between: seq<Request>)
    requires Sound(lots) && 0.0 <= amount <= Available(lots, coin) && Elsewhere(between, coin)
    ensures var after := Unlock(ApplyAll(Lock(lots, coin, amount), between), coin, amount);
      Available(after, coin) == Available(lots, coin) && Locked(after, coin) == Locked(lots, coin)
  {
    hide Lock, Unlock, Available, Locked, Sound;
    var lockedUp := Lock(lots, coin, amount);
    ApplyKeeps(lots, LockUp(coin, amount));
    LockIsAllOrNothing(lots, coin, amount, coin);
    ElsewhereKeepsTotals(lockedUp, between, coin);
    RequestsKeepLots(lockedUp, between);
    TotalsBounds(lots, coin);
    UnlockIsCapped(ApplyAll(lockedUp, between), coin, amount, coin);
  }

  /** What a lock takes from a lot. */
  function TakenFrom(l: Lot, coin: string, left: real): real
  {
    if l.coin == coin && l.available > 0.0 then Min(l.available, left) else 0.0
  }

  /** The index of the last lot a lock takes from. */
  function LastTaken(lots: seq<Lot>, coin: string, left: real): nat
    decreases lots
  {
    if lots == [] || left <= 0.0 then 0
    else
      var amount := TakenFrom(lots[0], coin, left);
      if left - amount <= 0.0 then 0 else 1 + LastTaken(lots[1..], coin, left - amount)
  }

  /** No lot of the coin before index `n` has anything locked. */
  predicate UnlockedBefore(lots: seq<Lot>, coin: string, n: nat)
  {
    forall i :: 0 <= i < n && i < |lots| && lots[i].coin == coin ==> lots[i].locked == 0.0
  }

  lemma UnlockedBeforeFirst(l: Lot, rest: seq<Lot>, coin: string, n: nat)
    ensures UnlockedBefore([l] + rest, coin, n + 1) <==>
      (l.coin == coin ==> l.locked == 0.0) && UnlockedBefore(rest, coin, n)
  {
    var lots := [l] + rest;
    if UnlockedBefore(lots, coin, n + 1) {
      assert lots[0] == l;
      forall i | 0 <= i < n && i < |rest| && rest[i].coin == coin ensures rest[i].locked == 0.0 {
        assert lots[i + 1] == rest[i];
      }
    }
  }

  /** What a cancel frees of a lot. */
  function FreedFrom(l: Lot, coin: string, left: real): real
  {
    if l.coin == coin && l.locked > 0.0 then Min(l.locked, left) else 0.0
  }

  lemma LockFirst(l: Lot, rest: seq<Lot>, coin: string, left: real)
    requires left > 0.0
    ensures LockFrom([l] + rest, coin, left)
         == [Move(l, TakenFrom(l, coin, left))] + LockFrom(rest, coin, left - TakenFrom(l, coin, left))
  {
    assert ([l] + rest)[1..] == rest;
    assert Move(l, 0.0) == l;
  }

  lemma UnlockFirst(l: Lot, rest: seq<Lot>, coin: string, left: real)
    requires left > 0.0
    ensures UnlockFrom([l] + rest, coin, left)
         == [Move(l, -FreedFrom(l, coin, left))] + UnlockFrom(rest, coin, left - FreedFrom(l, coin, left))
  {
    assert ([l] + rest)[1..] == rest;
    assert Move(l, 0.0) == l;
  }

  lemma NothingLeft(lots: seq<Lot>, coin: string, left: real)
    requires lots == [] || left <= 0.0
    ensures LockFrom(lots, coin, left) == lots && UnlockFrom(lots, coin, left) == lots
  {
  }

  /** A lot the lock ends at comes back whatever it had locked. */
  lemma LastLotIsRestored(l: Lot, rest: seq<Lot>, coin: string, left: real)
    requires l.locked >= 0.0 && 0.0 < left <= TakenFrom(l, coin, left)
    ensures UnlockFrom(LockFrom([l] + rest, coin, left), coin, left) == [l] + rest
  {
    hide LockFrom, UnlockFrom;
    LockFirst(l, rest, coin, left);
    UnlockFirst(Move(l, left), rest, coin, left);
    NothingLeft(rest, coin, 0.0);
  }

  lemma SameList(x: Lot, s: seq<Lot>, y: Lot, t: seq<Lot>)
    ensures [x] + s == [y] + t <==> x == y && s == t
  {
    if [x] + s == [y] + t {
      assert ([x] + s)[0] == x && ([y] + t)[0] == y && ([x] + s)[1..] == s && ([y] + t)[1..] == t;
    }
  }

  /** A lot the lock goes beyond comes back when it had nothing locked and the others come back. */
  lemma EarlierLotIsRestoredIff(l: Lot, rest: seq<Lot>, coin: string, left: real)
    requires l.available >= 0.0 && l.locked >= 0.0 && left > 0.0 && TakenFrom(l, coin, left) < left
    ensures var more := left - TakenFrom(l, coin, left);
      UnlockFrom(LockFrom([l] + rest, coin, left), coin, left) == [l] + rest
      <==> (l.coin == coin ==> l.locked == 0.0) && UnlockFrom(LockFrom(rest, coin, more), coin, more) == rest
  {
    hide LockFrom, UnlockFrom;
    var amount := TakenFrom(l, coin, left);
    var moved, lockedRest := Move(l, amount), LockFrom(rest, coin, left - amount);
    var freed := FreedFrom(moved, coin, left);
    LockFirst(l, rest, coin, left);
    UnlockFirst(moved, lockedRest, coin, left);
    SameList(Move(moved, -freed), UnlockFrom(lockedRest, coin, left - freed), l, rest);
    assert freed == amount <==> (l.coin == coin ==> l.locked == 0.0);
    assert Move(moved, -freed) == l <==> freed == amount;
  }

  lemma NoneBefore(lots: seq<Lot>, coin: string)
    ensures UnlockedBefore(lots, coin, 0)
  {
  }

  /** Unlocking what was locked puts every lot back exactly when no earlier lot of the coin
      had something locked before: a cancel frees the first locked lots it finds. */
  lemma {:induction false} UnlockRestoresIff(lots: seq<Lot>, coin: string, left: real)
    requires Sound(lots) && left <= Available(lots, coin)
    ensures UnlockFrom(LockFrom(lots, coin, left), coin, left) == lots
       <==> UnlockedBefore(lots, coin, LastTaken(lots, coin, left))
    decreases lots
  {
    hide Available, Sound, UnlockedBefore, LockFrom, UnlockFrom;
    NothingHeld(coin);
    if lots == [] || left <= 0.0 {
      NothingLeft(lots, coin, left);
      NoneBefore(lots, coin);
    } else {
      var l, rest := lots[0], lots[1..];
      var amount := TakenFrom(l, coin, left);
      assert lots == [l] + rest;
      TotalsPrepend(l, rest, coin);
      if left - amount <= 0.0 {
        LastLotIsRestored(l, rest, coin, left);
        NoneBefore(lots, coin);
      } else {
        EarlierLotIsRestoredIff(l, rest, coin, left);
        UnlockedBeforeFirst(l, rest, coin, LastTaken(rest, coin, left - amount));
        UnlockRestoresIff(rest, coin, left - amount);
      }
    }
  }

  /** The same for the requests themselves: a lock that succeeds, then its cancel. */
  lemma CancelRestoresLotsIff(lots: seq<Lot>, coin: string, amount: real)
    requires Sound(lots) && 0.0 <= amount <= Available(lots, coin)
    ensures Unlock(Lock(lots, coin, amount), coin, amount) == lots
       <==> UnlockedBefore(lots, coin, LastTaken(lots, coin, amount))
  {
    hide LockFrom, UnlockFrom, Available, Locked, LastTaken, UnlockedBefore, Sound;
    TotalsBounds(lots, coin);
    LockIsAllOrNothing(lots, coin, amount, coin);
    UnlockRestoresIff(lots, coin, amount);
  }

  /** Two lots for which it fails: the cancel frees the first, the lock was on the second. */
  lemma CancelMayFreeAnotherLot(first: Lot, second: Lot)
    requires first.coin == second.coin && first.available == 0.0 && first.locked > 0.0
    requires second.available == first.locked && second.locked == 0.0
    ensures var lots := [first, second];
      Unlock(Lock(lots, first.coin, second.available), first.coin, second.available)
        == [first.(available := first.locked, locked := 0.0), second.(available := 0.0, locked := first.locked)]
  {
    var coin, amount := first.coin, second.available;
    var lots := [first, second];
    TotalsPrepend(first, [second], coin);
    TotalsPrepend(second, [], coin);
    assert lots == [first] + [second] && [second] == [second] + [];
    var moved := Move(second, amount);
    assert LockFrom([second], coin, amount) == [moved] + LockFrom([], coin, 0.0);
    assert Lock(lots, coin, amount) == [first, moved];
    TotalsPrepend(first, [moved], coin);
    TotalsPrepend(moved, [], coin);
    assert [first, moved] == [first] + [moved] && [moved] == [moved] + [];
    assert UnlockFrom([first, moved], coin, amount) == [Move(first, -amount)] + UnlockFrom([moved], coin, 0.0);
  }

  // ----- Synchronising with the exchange -----

  datatype Balance = Balance(coin: string, free: real, locked: real)

  /** The exchange's balances by coin; of two for one coin the later counts. */
  function BalanceMap(balances: seq<Balance>): map<string, Balance>
  {
    if balances == [] then map[] else
      var last := balances[|balances| - 1];
      BalanceMap(balances[..|balances| - 1])[last.coin := last]
  }

  predicate Synced(lots: seq<Lot>, b: map<string, Balance>, coin: string)
  {
    coin in b && Held(lots, coin) > 0.0
  }

  /** A lot gets the share of the coin's balance that its quantity has of the coin's total. */
  function Shared(l: Lot, b: Balance, total: real): Lot
    requires total != 0.0
  {
    var proportion := l.quantity / total;
    l.(available := Cost(proportion, b.free), locked := Cost(proportion, b.locked))
  }

  function SyncLot(all: seq<Lot>, b: map<string, Balance>, l: Lot): Lot
  {
    if Synced(all, b, l.coin) then Shared(l, b[l.coin], Held(all, l.coin)) else l
  }

  function Sync(lots: seq<Lot>, b: map<string, Balance>): seq<Lot>
  {
    seq(|lots|, i requires 0 <= i < |lots| => SyncLot(lots, b, lots[i]))
  }

  lemma SyncedHasTotal(all: seq<Lot>, b: map<string, Balance>, coin: string)
    requires Synced(all, b, coin)
    ensures coin in b && Held(all, coin) > 0.0
  {
  }

  lemma RatioSplits(x: real, y: real, total: real)
    requires total != 0.0
    ensures (x + y) / total == x / total + y / total
  {
  }

  lemma CostSplitsRatio(a: real, x: real, y: real)
    ensures Cost(x + y, a) == Cost(x, a) + Cost(y, a)
  {
  }

  lemma {:induction false} SharesOfCoin(part: seq<Lot>, all: seq<Lot>, b: map<string, Balance>, coin: string,
                                        mapped: seq<Lot>)
    requires Synced(all, b, coin)
    requires |mapped| == |part| && forall i :: 0 <= i < |part| ==> mapped[i] == SyncLot(all, b, part[i])
    ensures Available(mapped, coin) == Cost(Held(part, coin) / Held(all, coin), b[coin].free)
    ensures Locked(mapped, coin) == Cost(Held(part, coin) / Held(all, coin), b[coin].locked)
    decreases part
  {
    hide Synced;
    var total := Held(all, coin);
    assert total > 0.0 by { SyncedHasTotal(all, b, coin); }
    if part != [] {
      assert coin in b by { SyncedHasTotal(all, b, coin); }
      SharesOfCoin(part[1..], all, b, coin, mapped[1..]);
      if part[0].coin == coin {
        RatioSplits(part[0].quantity, Held(part[1..], coin), total);
        CostSplitsRatio(b[coin].free, part[0].quantity / total, Held(part[1..], coin) / total);
        CostSplitsRatio(b[coin].locked, part[0].quantity / total, Held(part[1..], coin) / total);
      }
    }
  }

  lemma {:induction false} SyncKeepsQuantities(part: seq<Lot>, all: seq<Lot>, b: map<string, Balance>, coin: string,
                                               mapped: seq<Lot>)
    requires |mapped| == |part| && forall i :: 0 <= i < |part| ==> mapped[i] == SyncLot(all, b, part[i])
    ensures Held(mapped, coin) == Held(part, coin)
    decreases part
  {
    hide Synced;
    if part != [] {
      SyncKeepsQuantities(part[1..], all, b, coin, mapped[1..]);
    }
  }

  /** After a sync the lots of a reported coin add up to exactly what the exchange holds free
      and locked; lots of any other coin, and of a coin without quantity, are untouched. */
  lemma SyncMatchesExchange(lots: seq<Lot>, b: map<string, Balance>, coin: string)
    ensures |Sync(lots, b)| == |lots|
    ensures Synced(lots, b, coin) ==>
      Available(Sync(lots, b), coin) == b[coin].free && Locked(Sync(lots, b), coin) == b[coin].locked
    ensures !Synced(lots, b, coin) ==>
      forall i :: 0 <= i < |lots| && lots[i].coin == coin ==> Sync(lots, b)[i] == lots[i]
    ensures Held(Sync(lots, b), coin) == Held(lots, coin)
  {
    if Synced(lots, b, coin) {
      SharesOfCoin(lots, lots, b, coin, Sync(lots, b));
      assert Held(lots, coin) / Held(lots, coin) == 1.0;
    }
    SyncKeepsQuantities(lots, lots, b, coin, Sync(lots, b));
  }

  /** A second sync with the same balances changes nothing. */
  lemma SyncIsIdempotent(lots: seq<Lot>, b: map<string, Balance>)
    ensures Sync(Sync(lots, b), b) == Sync(lots, b)
  {
    var once := Sync(lots, b);
    forall i | 0 <= i < |lots| ensures Sync(once, b)[i] == once[i] {
      SyncMatchesExchange(lots, b, lots[i].coin);
    }
  }

  /** Entry `i` of the exchange's list is the last for its coin. */
  predicate LastFor(balances: seq<Balance>, i: int)
  {
    0 <= i < |balances| && forall j :: i < j < |balances| ==> balances[j].coin != balances[i].coin
  }

  lemma {:induction false} MapOfList(balances: seq<Balance>)
    ensures forall i :: LastFor(balances, i) ==>
      balances[i].coin in BalanceMap(balances) && BalanceMap(balances)[balances[i].coin] == balances[i]
    ensures forall coin :: coin in BalanceMap(balances) ==> exists b <- balances :: b.coin == coin
    decreases balances
  {
    if balances != [] {
      var n := |balances| - 1;
      var before := balances[..n];
      MapOfList(before);
      assert balances == before + [balances[n]];
      forall i | LastFor(balances, i) && i < n ensures LastFor(before, i) {
        assert balances[n].coin != balances[i].coin;
      }
    }
  }

  /** A lot has the share of a balance that its quantity is of the coin's total. */
  predicate HasShare(l: Lot, b: Balance, total: real, m: Lot)
  {
    m == l.(available := m.available, locked := m.locked) &&
    m.available * total == l.quantity * b.free && m.locked * total == l.quantity * b.locked
  }

  /** The lots after an update, by the exchange's list: those of a coin in it add up to its last entry,
      each with its share, and all others are as they were. */
  ghost predicate FollowsList(lots: seq<Lot>, balances: seq<Balance>, after: seq<Lot>)
  {
    && |after| == |lots|
    && (forall i :: LastFor(balances, i) && Held(lots, balances[i].coin) > 0.0 ==>
          Available(after, balances[i].coin) == balances[i].free &&
            Locked(after, balances[i].coin) == balances[i].locked)
    && (forall i, k :: LastFor(balances, i) && 0 <= k < |lots| && lots[k].coin == balances[i].coin ==>
          Held(lots, lots[k].coin) > 0.0 ==> HasShare(lots[k], balances[i], Held(lots, lots[k].coin), after[k]))
    && (forall k :: 0 <= k < |lots| ==>
          Held(lots, lots[k].coin) <= 0.0 || (forall b <- balances :: b.coin != lots[k].coin) ==> after[k] == lots[k])
  }

  lemma SharedHasShare(l: Lot, b: Balance, total: real)
    requires total != 0.0
    ensures HasShare(l, b, total, Shared(l, b, total))
  {
    var proportion := l.quantity / total;
    assert proportion * total == l.quantity;
    assert (proportion * b.free) * total == (proportion * total) * b.free;
    assert (proportion * b.locked) * total == (proportion * total) * b.locked;
  }

  lemma SyncFollowsList(lots: seq<Lot>, balances: seq<Balance>)
    ensures FollowsList(lots, balances, Sync(lots, BalanceMap(balances)))
  {
    var b := BalanceMap(balances);
    MapOfList(balances);
    forall i | LastFor(balances, i) && Held(lots, balances[i].coin) > 0.0
      ensures Available(Sync(lots, b), balances[i].coin) == balances[i].free
      ensures Locked(Sync(lots, b), balances[i].coin) == balances[i].locked
    {
      SyncMatchesExchange(lots, b, balances[i].coin);
    }
    forall i, k | LastFor(balances, i) && 0 <= k < |lots| && lots[k].coin == balances[i].coin
                  && Held(lots, lots[k].coin) > 0.0
      ensures HasShare(lots[k], balances[i], Held(lots, lots[k].coin), Sync(lots, b)[k])
    {
      SharedHasShare(lots[k], balances[i], Held(lots, lots[k].coin));
    }
  }
}
