/**
 Reference-counted market-data subscriptions: the broker's table, the signals it has sent
 but the event loop has not run yet, the manager's counters, and what the exchange's server
 sends on the current socket. The loop switches between tasks only where a task waits, and a
 send may wait after it has written its frame, so each step below happens as a whole. The
 steps are finer than the source in one place: between listing a channel's symbols and its
 first frame it does not wait, while other steps may come in here.
 */
module Subscriptions {
  import opened MapSums

  datatype Channel = TickerChannel | OhlcChannel

  datatype Topic = Topic(channel: Channel, symbol: string)

  datatype DataType = Price | Kline | User

  /** `target` and `queue` only matter for telling two subscriptions apart. */
  datatype Info = Info(dataType: DataType, symbol: string, target: int, queue: int)

  datatype Signal = Signal(topic: Topic, subscribe: bool)

  /** What is left to send of the subscriptions replayed on a new socket. */
  datatype Replay = NoReplay | Tickers(left: seq<string>) | Klines(left: seq<string>)

  type Registry = map<string, nat>

  datatype System = System(table: map<string, seq<Info>>, pending: seq<Signal>, tickers: Registry, klines: Registry,
                           connected: bool, replay: Replay, server: set<Topic>)

  /** `order` is the order in which a counter dictionary lists its symbols. */
  datatype Event =
    | Subscribe(id: string, info: Info)
    | Unsubscribe(id: string)
    | RunSignal
    | Connect(order: seq<string>)
    | ReplayNext(order: seq<string>)
    | Drop

  function Start(): System
  {
    System(map[], [], map[], map[], false, NoReplay, {})
  }

  // ----- The counters -----

  function Lookup(r: Registry, symbol: string): nat
  {
    if symbol in r then r[symbol] else 0
  }

  /** The counter moves by one but not below 0, and an entry of 0 is dropped. */
  function Adjusted(r: Registry, symbol: string, subscribe: bool): Registry
  {
    var previous := Lookup(r, symbol);
    var current: nat := if subscribe then previous + 1 else if previous > 0 then previous - 1 else 0;
    if current == 0 then r - {symbol} else r[symbol := current]
  }

  predicate Positive(r: Registry)
  {
    forall symbol <- r :: r[symbol] > 0
  }

  function RegistryOf(s: System, channel: Channel): Registry
  {
    if channel == TickerChannel then s.tickers else s.klines
  }

  function Count(s: System, t: Topic): nat
  {
    Lookup(RegistryOf(s, t.channel), t.symbol)
  }

  /** A frame changes the server's set when there is a socket to send it on. */
  function SendFrame(s: System, t: Topic, subscribe: bool): System
  {
    if !s.connected then s
    else s.(server := if subscribe then s.server + {t} else s.server - {t})
  }

  function AdjustSubscription(s: System, t: Topic, subscribe: bool): System
  {
    var r := Adjusted(RegistryOf(s, t.channel), t.symbol, subscribe);
    var s1 := if t.channel == TickerChannel then s.(tickers := r) else s.(klines := r);
    var previous, current := Count(s, t), Count(s1, t);
    if (previous > 0) == (current > 0) then s1 else SendFrame(s1, t, current > 0)
  }

  // ----- The broker -----

  /** The per-symbol topic of a subscription; account-wide ones have none. */
  function TopicsOf(info: Info): seq<Topic>
  {
    match info.dataType
    case Price => [Topic(TickerChannel, info.symbol)]
    case Kline => [Topic(OhlcChannel, info.symbol)]
    case User => []
  }

  function Signals(infos: seq<Info>, subscribe: bool): seq<Signal>
  {
    if infos == [] then []
    else (if TopicsOf(infos[0]) == [] then []
          else [Signal(TopicsOf(infos[0])[0], subscribe)]) + Signals(infos[1..], subscribe)
  }

  function InfosOf(s: System, id: string): seq<Info>
  {
    if id in s.table then s.table[id] else []
  }

  function SubscribeInfo(s: System, id: string, info: Info): System
  {
    if info in InfosOf(s, id) then s
    else s.(table := s.table[id := InfosOf(s, id) + [info]], pending := s.pending + Signals([info], true))
  }

  function UnsubscribeId(s: System, id: string): System
  {
    if id !in s.table then s
    else s.(table := s.table - {id}, pending := s.pending + Signals(s.table[id], false))
  }

  // ----- The public socket -----

  /** One frame of the replay; the symbols of a channel are listed when its turn comes. */
  function ReplayStep(s: System, order: seq<string>): System
  {
    match s.replay
    case NoReplay => s
    case Tickers(left) =>
      if left == [] then s.(replay := Klines(order))
      else SendFrame(s.(replay := Tickers(left[1..])), Topic(TickerChannel, left[0]), true)
    case Klines(left) =>
      if left == [] then s.(replay := NoReplay)
      else SendFrame(s.(replay := Klines(left[1..])), Topic(OhlcChannel, left[0]), true)
  }

  function Step(s: System, e: Event): System
  {
    match e
    case Subscribe(id, info) => SubscribeInfo(s, id, info)
    case Unsubscribe(id) => UnsubscribeId(s, id)
    case RunSignal =>
      if s.pending == [] then s
      else AdjustSubscription(s.(pending := s.pending[1..]), s.pending[0].topic, s.pending[0].subscribe)
    case Connect(order) =>
      if s.connected then s else s.(connected := true, server := {}, replay := Tickers(order))
    case ReplayNext(order) => if s.connected then ReplayStep(s, order) else s
    case Drop => s.(connected := false, server := {}, replay := NoReplay)
  }

  function Run(s: System, events: seq<Event>): System
    decreases events
  {
    if events == [] then s else Run(Step(s, events[0]), events[1..])
  }

  ghost predicate Lists(order: seq<string>, r: Registry)
  {
    forall symbol :: symbol in order <==> symbol in r
  }

  /** Listing a dictionary gives its keys. */
  ghost predicate Fair(s: System, e: Event)
  {
    match e
    case Connect(order) => Lists(order, s.tickers)
    case ReplayNext(order) => Lists(order, s.klines)
    case _ => true
  }

  ghost predicate FairRun(s: System, events: seq<Event>)
    decreases events
  {
    events == [] || (Fair(s, events[0]) && FairRun(Step(s, events[0]), events[1..]))
  }

  // ----- Counters and the broker's table -----

  /** How many subscriptions of a list are for a topic. */
  function Matches(infos: seq<Info>, t: Topic): nat
  {
    if infos == [] then 0 else (if t in TopicsOf(infos[0]) then 1 else 0) + Matches(infos[1..], t)
  }

  ghost function Entries(table: map<string, seq<Info>>, t: Topic): real
  {
    Sum(table, infos => Matches(infos, t) as real)
  }

  /** What the signals not yet run will add to a topic's counter. */
  function Net(signals: seq<Signal>, t: Topic): int
  {
    if signals == [] then 0
    else (if signals[0].topic == t then (if signals[0].subscribe then 1 else -1) else 0) + Net(signals[1..], t)
  }

  /** Counter and waiting signals add up to the table's entries, and no signal will find the
      counter at 0 when it is to decrease it. */
  ghost predicate Counted(s: System, t: Topic)
  {
    (Count(s, t) + Net(s.pending, t)) as real == Entries(s.table, t) &&
    forall n :: 0 <= n <= |s.pending| ==> Count(s, t) + Net(s.pending[..n], t) >= 0
  }

  lemma {:induction false} NetSplits(a: seq<Signal>, b: seq<Signal>, t: Topic)
    ensures Net(a + b, t) == Net(a, t) + Net(b, t)
  {
    if a == [] {
      assert a + b == b;
    } else {
      assert (a + b)[0] == a[0] && (a + b)[1..] == a[1..] + b;
      NetSplits(a[1..], b, t);
    }
  }

  lemma NetOfOne(info: Info, subscribe: bool, t: Topic)
    ensures var first := if TopicsOf(info) == [] then [] else [Signal(TopicsOf(info)[0], subscribe)];
      Net(first, t) == if t !in TopicsOf(info) then 0 else if subscribe then 1 else -1
  {
    if TopicsOf(info) != [] {
      assert [Signal(TopicsOf(info)[0], subscribe)][1..] == [];
    }
  }

  lemma {:induction false} NetOfSignals(infos: seq<Info>, subscribe: bool, t: Topic)
    ensures Net(Signals(infos, subscribe), t) == if subscribe then Matches(infos, t) else 0 - Matches(infos, t)
  {
    if infos != [] {
      NetOfSignals(infos[1..], subscribe, t);
      var first := if TopicsOf(infos[0]) == [] then [] else [Signal(TopicsOf(infos[0])[0], subscribe)];
      NetSplits(first, Signals(infos[1..], subscribe), t);
      NetOfOne(infos[0], subscribe, t);
    }
  }

  /** Part of one table entry's removals never takes more than all of them. */
  lemma {:induction false} NetOfPrefix(infos: seq<Info>, subscribe: bool, t: Topic, n: nat)
    requires n <= |Signals(infos, subscribe)|
    ensures 0 - Matches(infos, t) <= Net(Signals(infos, subscribe)[..n], t)
    ensures subscribe ==> Net(Signals(infos, subscribe)[..n], t) >= 0
    decreases infos
  {
    var signals := Signals(infos, subscribe);
    if infos != [] && n > 0 {
      var rest := Signals(infos[1..], subscribe);
      if TopicsOf(infos[0]) == [] {
        assert signals == rest;
        NetOfPrefix(infos[1..], subscribe, t, n);
      } else {
        var first := [Signal(TopicsOf(infos[0])[0], subscribe)];
        assert signals[..n] == first + rest[..n - 1];
        NetSplits(first, rest[..n - 1], t);
        NetOfOne(infos[0], subscribe, t);
        NetOfPrefix(infos[1..], subscribe, t, n - 1);
      }
    } else {
      assert signals[..n] == [];
    }
  }

  lemma {:induction false} MatchesSplit(infos: seq<Info>, info: Info, t: Topic)
    ensures Matches(infos + [info], t) == Matches(infos, t) + Matches([info], t)
  {
    if infos == [] {
      assert infos + [info] == [info];
    } else {
      MatchesSplit(infos[1..], info, t);
      assert (infos + [info])[1..] == infos[1..] + [info];
    }
  }

  /** Signals appended for some table entries: their prefixes stay above what is left. */
  lemma AppendKeepsPrefixes(s: System, infos: seq<Info>, subscribe: bool, t: Topic, n: nat)
    requires Counted(s, t) && n <= |s.pending + Signals(infos, subscribe)|
    requires !subscribe ==> Count(s, t) + Net(s.pending, t) >= Matches(infos, t)
    ensures Count(s, t) + Net((s.pending + Signals(infos, subscribe))[..n], t) >= 0
  {
    var signals := Signals(infos, subscribe);
    if n <= |s.pending| {
      assert (s.pending + signals)[..n] == s.pending[..n];
    } else {
      var m := n - |s.pending|;
      assert (s.pending + signals)[..n] == s.pending + signals[..m];
      NetSplits(s.pending, signals[..m], t);
      NetOfPrefix(infos, subscribe, t, m);
      assert s.pending[..|s.pending|] == s.pending;
    }
  }

  lemma NoMatches(t: Topic)
    ensures Matches([], t) == 0
  {
  }

  lemma EntriesIsSum(table: map<string, seq<Info>>, t: Topic, f: seq<Info> -> real)
    requires forall infos :: f(infos) == Matches(infos, t) as real
    ensures Entries(table, t) == Sum(table, f)
  {
    var g := (infos: seq<Info>) => Matches(infos, t) as real;
    SumMonotone(table, f, g);
    SumMonotone(table, g, f);
  }

  lemma SubscribeKeepsCounted(s: System, id: string, info: Info, t: Topic)
    requires Counted(s, t)
    ensures Counted(SubscribeInfo(s, id, info), t)
  {
    hide Net, Matches, Signals;
    if info !in InfosOf(s, id) {
      var f := (list: seq<Info>) => Matches(list, t) as real;
      var g := SubscribeInfo(s, id, info);
      var infos := InfosOf(s, id);
      SumUpdate(s.table, f, id, infos + [info]);
      MatchesSplit(infos, info, t);
      NoMatches(t);
      NetSplits(s.pending, Signals([info], true), t);
      NetOfSignals([info], true, t);
      EntriesIsSum(s.table, t, f);
      EntriesIsSum(g.table, t, f);
      forall n | 0 <= n <= |g.pending| ensures Count(g, t) + Net(g.pending[..n], t) >= 0 {
        AppendKeepsPrefixes(s, [info], true, t, n);
      }
    }
  }

  lemma EntriesNonNegative(table: map<string, seq<Info>>, t: Topic)
    ensures Entries(table, t) >= 0.0
  {
    var zero := (infos: seq<Info>) => 0.0;
    SumOfZeros(table, zero);
    SumMonotone(table, zero, (infos: seq<Info>) => Matches(infos, t) as real);
  }

  lemma UnsubscribeKeepsCounted(s: System, id: string, t: Topic)
    requires Counted(s, t)
    ensures Counted(UnsubscribeId(s, id), t)
  {
    hide Net, Matches, Signals;
    if id in s.table {
      var f := (infos: seq<Info>) => Matches(infos, t) as real;
      var g := UnsubscribeId(s, id);
      SumTakeOut(s.table, f, id);
      EntriesIsSum(s.table, t, f);
      EntriesIsSum(g.table, t, f);
      EntriesNonNegative(g.table, t);
      NetSplits(s.pending, Signals(s.table[id], false), t);
      NetOfSignals(s.table[id], false, t);
      forall n | 0 <= n <= |g.pending| ensures Count(g, t) + Net(g.pending[..n], t) >= 0 {
        AppendKeepsPrefixes(s, s.table[id], false, t, n);
      }
    }
  }

  /** Adjusting one topic's counter leaves every other counter alone. */
  lemma AdjustMovesOne(s: System, u: Topic, subscribe: bool, t: Topic)
    ensures var g := AdjustSubscription(s, u, subscribe);
      Count(g, t) == (if u != t then Count(s, t) else if subscribe then Count(s, t) + 1
                      else if Count(s, t) > 0 then Count(s, t) - 1 else 0) &&
      g.table == s.table && g.pending == s.pending && g.connected == s.connected && g.replay == s.replay
  {
  }

  /** Frames go out on a socket, and only when a counter leaves or reaches 0. */
  lemma AdjustSendsOne(s: System, u: Topic, subscribe: bool)
    ensures var g := AdjustSubscription(s, u, subscribe);
      g.server == if !s.connected || (Count(s, u) > 0) == (Count(g, u) > 0) then s.server
                  else if subscribe then s.server + {u} else s.server - {u}
  {
  }

  lemma AdjustKeepsPositive(s: System, u: Topic, subscribe: bool)
    requires Positive(s.tickers) && Positive(s.klines)
    ensures Positive(AdjustSubscription(s, u, subscribe).tickers) &&
      Positive(AdjustSubscription(s, u, subscribe).klines)
  {
    assert Positive(Adjusted(RegistryOf(s, u.channel), u.symbol, subscribe));
  }

  lemma CountIgnoresPending(s: System, pending: seq<Signal>, t: Topic)
    ensures Count(s.(pending := pending), t) == Count(s, t)
  {
  }

  lemma NetOfFirst(first: Signal, t: Topic)
    ensures Net([first], t) == if first.topic != t then 0 else if first.subscribe then 1 else -1
  {
    assert [first][1..] == [];
  }

  /** Running the first signal moves its one from the queue to the counter, unclamped. */
  lemma SignalKeepsCounted(s: System, t: Topic)
    requires Counted(s, t) && s.pending != []
    ensures Counted(Step(s, RunSignal), t)
    ensures Count(Step(s, RunSignal), t) == Count(s, t) + Net([s.pending[0]], t)
  {
    hide Net, Entries, AdjustSubscription, Count;
    var first, rest := s.pending[0], s.pending[1..];
    assert s.pending == [first] + rest && s.pending[..1] == [first];
    NetOfFirst(first, t);
    NetSplits([first], rest, t);
    var s1 := s.(pending := rest);
    AdjustMovesOne(s1, first.topic, first.subscribe, t);
    assert Count(s1, t) == Count(s, t) by { CountIgnoresPending(s, rest, t); }
    var g := Step(s, RunSignal);
    assert Count(s, t) + Net(s.pending[..1], t) >= 0;
    assert Count(g, t) == Count(s, t) + Net([first], t);
    forall n | 0 <= n <= |rest| ensures Count(g, t) + Net(rest[..n], t) >= 0 {
      assert s.pending[..n + 1] == [first] + rest[..n];
      NetSplits([first], rest[..n], t);
    }
  }

  lemma StepKeepsCounted(s: System, e: Event, t: Topic)
    requires Counted(s, t)
    ensures Counted(Step(s, e), t)
  {
    hide Net, Entries, SubscribeInfo, UnsubscribeId;
    match e
    case Subscribe(id, info) => SubscribeKeepsCounted(s, id, info, t);
    case Unsubscribe(id) => UnsubscribeKeepsCounted(s, id, t);
    case RunSignal =>
      if s.pending != [] {
        SignalKeepsCounted(s, t);
      }
    case _ =>
  }

  lemma {:induction false} RunKeepsCounted(s: System, events: seq<Event>, t: Topic)
    requires Counted(s, t)
    ensures Counted(Run(s, events), t)
    decreases events
  {
    hide Counted, Step;
    if events != [] {
      StepKeepsCounted(s, events[0], t);
      RunKeepsCounted(Step(s, events[0]), events[1..], t);
    }
  }

  /** Once the loop has run every signal, a topic's counter is its number of table entries. */
  lemma CounterIsEntries(events: seq<Event>, t: Topic)
    ensures var s := Run(Start(), events);
      Counted(s, t) && (s.pending == [] ==> Count(s, t) as real == Entries(s.table, t))
  {
    SumOfZeros<string, seq<Info>>(map[], infos => Matches(infos, t) as real);
    assert Counted(Start(), t);
    RunKeepsCounted(Start(), events, t);
  }

  /** The clamp at 0 is never used: a signal always moves the counter by exactly one. */
  lemma ClampIsNeverUsed(events: seq<Event>)
    ensures var s := Run(Start(), events);
      s.pending != [] ==>
      var first := s.pending[0];
      Count(Step(s, RunSignal), first.topic) == Count(s, first.topic) + if first.subscribe then 1 else -1
  {
    var s := Run(Start(), events);
    if s.pending != [] {
      var t := s.pending[0].topic;
      CounterIsEntries(events, t);
      SignalKeepsCounted(s, t);
      NetOfFirst(s.pending[0], t);
    }
  }

  // ----- The broker's table and its history -----

  lemma {:induction false} RunLast(s: System, events: seq<Event>, e: Event)
    ensures Run(s, events + [e]) == Step(Run(s, events), e)
    decreases events
  {
    if events == [] {
      assert [] + [e] == [e] && [e][1..] == [];
      assert Run(Step(s, e), []) == Step(s, e);
    } else {
      assert (events + [e])[0] == events[0] && (events + [e])[1..] == events[1..] + [e];
      RunLast(Step(s, events[0]), events[1..], e);
    }
  }

  /** The id subscribed at index `i` and did not unsubscribe since. */
  predicate SubscribedAt(events: seq<Event>, id: string, info: Info, i: int)
  {
    0 <= i < |events| && events[i] == Subscribe(id, info) && forall j :: i < j < |events| ==>
      events[j] != Unsubscribe(id)
  }

  lemma SubscribedSince(before: seq<Event>, last: Event, id: string, info: Info, i: int)
    requires i < |before|
    ensures SubscribedAt(before + [last], id, info, i)
       <==> SubscribedAt(before, id, info, i) && last != Unsubscribe(id)
  {
    assert forall j :: 0 <= j < |before| ==> (before + [last])[j] == before[j];
    assert (before + [last])[|before|] == last;
  }

  predicate EachOnce(infos: seq<Info>)
  {
    forall i, j :: 0 <= i < j < |infos| ==> infos[i] != infos[j]
  }

  lemma FramesKeepTable(s: System, e: Event)
    requires !e.Subscribe? && !e.Unsubscribe?
    ensures Step(s, e).table == s.table
  {
  }

  lemma NoneTwice()
    ensures EachOnce([])
  {
  }

  lemma OneMore(infos: seq<Info>, x: Info)
    requires EachOnce(infos) && x !in infos
    ensures EachOnce(infos + [x])
  {
  }

  lemma EntriesAfter(s: System, e: Event, id: string, info: Info)
    requires EachOnce(InfosOf(s, id))
    ensures info in InfosOf(Step(s, e), id)
       <==> e == Subscribe(id, info) || (info in InfosOf(s, id) && e != Unsubscribe(id))
    ensures EachOnce(InfosOf(Step(s, e), id))
  {
    hide Signals, EachOnce;
    var before, after := InfosOf(s, id), InfosOf(Step(s, e), id);
    match e
    case Subscribe(other, x) =>
      if other == id && x !in before {
        assert after == before + [x];
        OneMore(before, x);
      } else {
        assert after == before;
      }
    case Unsubscribe(other) =>
      if other == id {
        assert after == [];
        NoneTwice();
      } else {
        assert after == before;
      }
    case _ =>
      FramesKeepTable(s, e);
      assert after == before;
  }

  /** A system's entries are exactly what it subscribed to since it last unsubscribed, each once. */
  lemma {:induction false} TableIsHistory(events: seq<Event>, id: string, info: Info)
    ensures var infos := InfosOf(Run(Start(), events), id);
      (info in infos <==> exists i :: SubscribedAt(events, id, info, i)) && EachOnce(infos)
    decreases events
  {
    if events != [] {
      var n := |events| - 1;
      var before, last := events[..n], events[n];
      assert events == before + [last];
      RunLast(Start(), before, last);
      hide Run, Step, InfosOf;
      TableIsHistory(before, id, info);
      EntriesAfter(Run(Start(), before), last, id, info);
      forall i | i < n
        ensures SubscribedAt(events, id, info, i) <==> SubscribedAt(before, id, info, i) && last != Unsubscribe(id)
      {
        SubscribedSince(before, last, id, info, i);
      }
      assert SubscribedAt(events, id, info, n) <==> last == Subscribe(id, info);
    }
  }

  // ----- Counters and the server -----

  /** What a replay under way will still subscribe. */
  predicate ToReplay(s: System, t: Topic)
  {
    match s.replay
    case NoReplay => false
    case Tickers(left) => t.channel == OhlcChannel || t.symbol in left
    case Klines(left) => t.channel == OhlcChannel && t.symbol in left
  }

  /** While connected, whoever subscribed is served or about to be. */
  predicate Served(s: System, t: Topic)
  {
    Positive(s.tickers) && Positive(s.klines) &&
    (s.connected && Count(s, t) > 0 ==> t in s.server || ToReplay(s, t))
  }

  lemma StepKeepsServed(s: System, e: Event, t: Topic)
    requires Served(s, t) && Fair(s, e)
    ensures Served(Step(s, e), t)
  {
    hide Signals, AdjustSubscription;
    if e.RunSignal? && s.pending != [] {
      var s1, first := s.(pending := s.pending[1..]), s.pending[0];
      AdjustMovesOne(s1, first.topic, first.subscribe, t);
      AdjustMovesOne(s1, first.topic, first.subscribe, first.topic);
      AdjustSendsOne(s1, first.topic, first.subscribe);
      AdjustKeepsPositive(s1, first.topic, first.subscribe);
    }
  }

  lemma {:induction false} RunKeepsServed(s: System, events: seq<Event>, t: Topic)
    requires Served(s, t) && FairRun(s, events)
    ensures Served(Run(s, events), t)
    decreases events
  {
    hide Served, Step, Fair;
    if events != [] {
      StepKeepsServed(s, events[0], t);
      RunKeepsServed(Step(s, events[0]), events[1..], t);
    }
  }

  /** No subscriber is lost, however calls interleave with reconnects and their replays: once
      a replay has ended, every topic with a positive counter is subscribed on the socket. */
  lemma NoSubscriberIsLost(events: seq<Event>, t: Topic)
    requires FairRun(Start(), events)
    ensures var s := Run(Start(), events);
      s.connected && s.replay.NoReplay? && Count(s, t) > 0 ==> t in s.server
  {
    RunKeepsServed(Start(), events, t);
  }

  lemma {:induction false} MatchesMember(infos: seq<Info>, info: Info, t: Topic)
    requires info in infos && t in TopicsOf(info)
    ensures Matches(infos, t) >= 1
  {
    if infos[0] != info {
      MatchesMember(infos[1..], info, t);
    }
  }

  /** From the broker's table to the server: every subscription of every system is served. */
  lemma EverySubscriptionIsServed(events: seq<Event>, id: string, info: Info, t: Topic)
    requires FairRun(Start(), events)
    ensures var s := Run(Start(), events);
      s.pending == [] && s.connected && s.replay.NoReplay? && info in InfosOf(s, id) && t in TopicsOf(info) ==>
        t in s.server
  {
    var s := Run(Start(), events);
    if s.pending == [] && info in InfosOf(s, id) && t in TopicsOf(info) {
      var f := (infos: seq<Info>) => Matches(infos, t) as real;
      CounterIsEntries(events, t);
      NoSubscriberIsLost(events, t);
      MatchesMember(s.table[id], info, t);
      SumTakeOut(s.table, f, id);
      EntriesIsSum(s.table, t, f);
      EntriesIsSum(s.table - {id}, t, f);
      EntriesNonNegative(s.table - {id}, t);
    }
  }

  // ----- Exactly the subscribed topics -----

  /** The replay will subscribe a topic it has already listed. */
  predicate Listed(s: System, t: Topic)
  {
    match s.replay
    case NoReplay => false
    case Tickers(left) => t.channel == TickerChannel && t.symbol in left
    case Klines(left) => t.channel == OhlcChannel && t.symbol in left
  }

  /** The signal does not end the last subscription of a topic that a replay has listed but
      not sent yet. */
  predicate Undisturbed(s: System, e: Event)
  {
    !(e.RunSignal? && s.pending != [] && !s.pending[0].subscribe && Count(s, s.pending[0].topic) == 1 &&
      Listed(s, s.pending[0].topic))
  }

  ghost predicate UndisturbedRun(s: System, events: seq<Event>)
    decreases events
  {
    events == [] || (Fair(s, events[0]) && Undisturbed(s, events[0]) && UndisturbedRun(Step(s, events[0]), events[1..]))
  }

  predicate Exact(s: System, t: Topic)
  {
    Served(s, t) && (t in s.server || Listed(s, t) ==> Count(s, t) > 0) &&
      (!s.connected ==> s.server == {} && s.replay.NoReplay?)
  }

  lemma StepKeepsExact(s: System, e: Event, t: Topic)
    requires Exact(s, t) && Fair(s, e) && Undisturbed(s, e)
    ensures Exact(Step(s, e), t)
  {
    hide Signals, AdjustSubscription;
    StepKeepsServed(s, e, t);
    if e.RunSignal? && s.pending != [] {
      var s1, first := s.(pending := s.pending[1..]), s.pending[0];
      AdjustMovesOne(s1, first.topic, first.subscribe, t);
      AdjustMovesOne(s1, first.topic, first.subscribe, first.topic);
      AdjustSendsOne(s1, first.topic, first.subscribe);
      AdjustKeepsPositive(s1, first.topic, first.subscribe);
    }
  }

  lemma {:induction false} UndisturbedRunKeepsExact(s: System, events: seq<Event>, t: Topic)
    requires Exact(s, t) && UndisturbedRun(s, events)
    ensures Exact(Run(s, events), t)
    decreases events
  {
    hide Exact, Step, Fair, Undisturbed;
    if events != [] {
      StepKeepsExact(s, events[0], t);
      UndisturbedRunKeepsExact(Step(s, events[0]), events[1..], t);
    }
  }

  /** When no replay is disturbed, the server sends exactly the topics with a positive counter. */
  lemma ServerIsExact(events: seq<Event>)
    requires UndisturbedRun(Start(), events)
    ensures var s := Run(Start(), events);
      s.connected && s.replay.NoReplay? ==> forall t :: t in s.server <==> Count(s, t) > 0
  {
    var s := Run(Start(), events);
    forall t ensures s.connected && s.replay.NoReplay? ==> (t in s.server <==> Count(s, t) > 0) {
      UndisturbedRunKeepsExact(Start(), events, t);
    }
  }

  /** One step keeps every topic exact if and only if it does not disturb a replay. */
  lemma ExactIffUndisturbed(s: System, e: Event)
    requires Fair(s, e) && forall t :: Exact(s, t)
    ensures (forall t :: Exact(Step(s, e), t)) <==> Undisturbed(s, e)
  {
    if Undisturbed(s, e) {
      forall t ensures Exact(Step(s, e), t) {
        StepKeepsExact(s, e, t);
      }
    } else {
      var first := s.pending[0];
      AdjustMovesOne(s.(pending := s.pending[1..]), first.topic, false, first.topic);
      assert !Exact(Step(s, e), first.topic);
    }
  }

  ghost predicate OnlyReplays(events: seq<Event>)
  {
    forall e <- events :: e.ReplayNext?
  }

  /** Frames of the replay do not touch the counters, and what is listed stays listed until it
      has been sent. */
  lemma {:induction false} ReplaySendsListed(s: System, events: seq<Event>, t: Topic)
    requires s.connected && (t in s.server || Listed(s, t)) && OnlyReplays(events)
    ensures var g := Run(s, events);
      Count(g, t) == Count(s, t) && g.connected && (t in g.server || Listed(g, t))
    decreases events
  {
    if events != [] {
      assert events[0] in events;
      ReplaySendsListed(Step(s, events[0]), events[1..], t);
    }
  }

  /** A disturbed replay does leak, wherever in the list the topic stands and on either channel:
      when the replay has ended, the server sends a topic nobody is subscribed to. */
  lemma DisturbedReplayLeaks(s: System, events: seq<Event>)
    requires s.connected && !Undisturbed(s, RunSignal) && OnlyReplays(events)
    ensures var t := s.pending[0].topic;
      var g := Run(Step(s, RunSignal), events);
      Count(g, t) == 0 && (g.replay.NoReplay? ==> t in g.server)
  {
    hide AdjustSubscription;
    var first := s.pending[0];
    AdjustMovesOne(s.(pending := s.pending[1..]), first.topic, false, first.topic);
    ReplaySendsListed(Step(s, RunSignal), events, first.topic);
  }

  // ----- A run that leaks -----

  /** A run from its `i`-th event on is that event and the run after it. */
  lemma RunsFrom(s: System, events: seq<Event>, i: nat)
    requires i <= |events|
    ensures i == 0 ==> events[i..] == events
    ensures if i == |events| then Run(s, events[i..]) == s && FairRun(s, events[i..])
            else Run(s, events[i..]) == Run(Step(s, events[i]), events[i + 1..]) &&
                 (FairRun(s, events[i..]) <==> Fair(s, events[i]) && FairRun(Step(s, events[i]), events[i + 1..]))
  {
    if i < |events| {
      assert events[i..][0] == events[i] && events[i..][1..] == events[i + 1..];
    }
  }

  /** Two subscribers of one channel come and the socket connects. The second leaves while the
      replay waits after its first frame, which is for the first one's symbol. */
  function LeakingRun(x: string, a: Info, y: string, b: Info): seq<Event>
  {
    var both := [a.symbol, b.symbol];
    if a.dataType == Price then
      [Subscribe(x, a), Subscribe(y, b), RunSignal, RunSignal, Connect(both),
       ReplayNext([]), Unsubscribe(y), RunSignal, ReplayNext([]), ReplayNext([]), ReplayNext([])]
    else
      [Subscribe(x, a), Subscribe(y, b), RunSignal, RunSignal, Connect([]), ReplayNext(both),
       ReplayNext(both), Unsubscribe(y), RunSignal, ReplayNext([a.symbol]), ReplayNext([a.symbol])]
  }

  predicate TwoOfAKind(x: string, a: Info, y: string, b: Info)
  {
    x != y && a.symbol != b.symbol && a.dataType == b.dataType != User
  }

  function TopicOf(info: Info): Topic
    requires info.dataType != User
  {
    TopicsOf(info)[0]
  }

  /** The system with these registries for the channel of `a`, and none for the other. */
  function Counting(a: Info, table: map<string, seq<Info>>, r: Registry, pending: seq<Signal>): System
  {
    Start().(table := table, pending := pending,
             tickers := if a.dataType == Price then r else map[], klines := if a.dataType == Price then map[] else r)
  }

  lemma OneSignal(info: Info, subscribe: bool)
    requires info.dataType != User
    ensures Signals([info], subscribe) == [Signal(TopicOf(info), subscribe)]
  {
    assert [info][1..] == [] && Signals([], subscribe) == [];
    assert [Signal(TopicOf(info), subscribe)] + [] == [Signal(TopicOf(info), subscribe)];
  }

  lemma BothSubscribe(x: string, a: Info, y: string, b: Info)
    requires TwoOfAKind(x, a, y, b)
    ensures Step(Step(Start(), Subscribe(x, a)), Subscribe(y, b))
         == Counting(a, map[x := [a], y := [b]], map[], [Signal(TopicOf(a), true), Signal(TopicOf(b), true)])
  {
    assert [] + [a] == [a] && [] + [b] == [b];
    OneSignal(a, true);
    OneSignal(b, true);
    var s1 := Step(Start(), Subscribe(x, a));
    assert s1.pending == [Signal(TopicOf(a), true)] && s1.table == map[x := [a]];
    assert s1.pending + [Signal(TopicOf(b), true)] == [Signal(TopicOf(a), true), Signal(TopicOf(b), true)];
  }

  lemma BothCount(a: Info, b: Info, table: map<string, seq<Info>>)
    requires a.symbol != b.symbol && a.dataType == b.dataType != User
    ensures var s := Counting(a, table, map[], [Signal(TopicOf(a), true), Signal(TopicOf(b), true)]);
      Step(Step(s, RunSignal), RunSignal) == Counting(a, table, map[a.symbol := 1, b.symbol := 1], [])
  {
    var s := Counting(a, table, map[], [Signal(TopicOf(a), true), Signal(TopicOf(b), true)]);
    assert s.pending[1..] == [Signal(TopicOf(b), true)] && [Signal(TopicOf(b), true)][1..] == [];
    var s1 := Step(s, RunSignal);
    assert s1 == Counting(a, table, map[a.symbol := 1], [Signal(TopicOf(b), true)]);
    assert Adjusted(map[a.symbol := 1], b.symbol, true) == map[a.symbol := 1, b.symbol := 1];
  }

  /** The second subscriber leaves, and its signal runs while the replay has its topic listed. */
  lemma SecondLeaves(s: System, x: string, a: Info, y: string, b: Info)
    requires TwoOfAKind(x, a, y, b) && s.connected && s.server == {TopicOf(a)}
    requires s == Counting(a, map[x := [a], y := [b]], map[a.symbol := 1, b.symbol := 1], [])
                    .(connected := true, replay := s.replay, server := s.server)
    ensures var g := Step(Step(s, Unsubscribe(y)), RunSignal);
      g == Counting(a, map[x := [a]], map[a.symbol := 1], []).(connected := true, replay := s.replay,
                                                               server := s.server)
  {
    OneSignal(b, false);
    var s1 := Step(s, Unsubscribe(y));
    assert s1.table == map[x := [a]];
    assert s1.pending == [Signal(TopicOf(b), false)] && s1.pending[1..] == [];
    assert Adjusted(map[a.symbol := 1, b.symbol := 1], b.symbol, false) == map[a.symbol := 1];
    assert {TopicOf(a)} - {TopicOf(b)} == {TopicOf(a)};
  }

  /** Up to the first frame: the socket connects, the symbols are listed, the first one is sent. */
  lemma FirstFrame(s: System, x: string, a: Info, y: string, b: Info)
    requires TwoOfAKind(x, a, y, b)
    requires s == Counting(a, map[x := [a], y := [b]], map[a.symbol := 1, b.symbol := 1], [])
    ensures var es := LeakingRun(x, a, y, b);
      if a.dataType == Price then
        Step(Step(s, es[4]), es[5]) == s.(connected := true, replay := Tickers([b.symbol]), server := {TopicOf(a)}) &&
        Fair(s, es[4]) && Fair(Step(s, es[4]), es[5])
      else
        Step(Step(Step(s, es[4]), es[5]), es[6])
          == s.(connected := true, replay := Klines([b.symbol]), server := {TopicOf(a)}) &&
        Fair(s, es[4]) && Fair(Step(s, es[4]), es[5]) && Fair(Step(Step(s, es[4]), es[5]), es[6])
  {
    assert [a.symbol, b.symbol][1..] == [b.symbol];
    assert {} + {TopicOf(a)} == {TopicOf(a)};
  }

  /** From the second frame on. */
  lemma LastFrames(s: System, x: string, a: Info, y: string, b: Info)
    requires TwoOfAKind(x, a, y, b) && s.connected && s.server == {TopicOf(a)}
    requires s.replay == if a.dataType == Price then Tickers([b.symbol]) else Klines([b.symbol])
    requires a.dataType == Price ==> s.klines == map[]
    requires a.dataType == Kline ==> s.klines == map[a.symbol := 1]
    ensures var es := LeakingRun(x, a, y, b);
      var g := s.(replay := NoReplay, server := {TopicOf(a), TopicOf(b)});
      if a.dataType == Price then
        Step(Step(Step(s, es[8]), es[9]), es[10]) == g &&
        Fair(s, es[8]) && Fair(Step(s, es[8]), es[9]) && Fair(Step(Step(s, es[8]), es[9]), es[10])
      else
        Step(Step(s, es[9]), es[10]) == g && Fair(s, es[9]) && Fair(Step(s, es[9]), es[10])
  {
    assert [b.symbol][1..] == [];
    assert {TopicOf(a)} + {TopicOf(b)} == {TopicOf(a), TopicOf(b)};
  }

  lemma TickerReplayLeaks(s4: System, x: string, a: Info, y: string, b: Info)
    requires TwoOfAKind(x, a, y, b) && a.dataType == Price
    requires s4 == Counting(a, map[x := [a], y := [b]], map[a.symbol := 1, b.symbol := 1], [])
    ensures FairRun(s4, LeakingRun(x, a, y, b)[4..])
    ensures Run(s4, LeakingRun(x, a, y, b)[4..])
         == Counting(a, map[x := [a]], map[a.symbol := 1], []).(connected := true, server := {TopicOf(a), TopicOf(b)})
  {
    hide Step, Run, FairRun;
    var es := LeakingRun(x, a, y, b);
    FirstFrame(s4, x, a, y, b);
    var s5 := Step(s4, es[4]);
    var s6 := Step(s5, es[5]);
    SecondLeaves(s6, x, a, y, b);
    var s7 := Step(s6, es[6]);
    var s8 := Step(s7, es[7]);
    LastFrames(s8, x, a, y, b);
    var s9 := Step(s8, es[8]);
    var s10 := Step(s9, es[9]);
    RunsFrom(s4, es, 4);
    RunsFrom(s5, es, 5);
    RunsFrom(s6, es, 6);
    RunsFrom(s7, es, 7);
    RunsFrom(s8, es, 8);
    RunsFrom(s9, es, 9);
    RunsFrom(s10, es, 10);
    RunsFrom(Step(s10, es[10]), es, 11);
  }

  lemma KlineReplayLeaks(s4: System, x: string, a: Info, y: string, b: Info)
    requires TwoOfAKind(x, a, y, b) && a.dataType == Kline
    requires s4 == Counting(a, map[x := [a], y := [b]], map[a.symbol := 1, b.symbol := 1], [])
    ensures FairRun(s4, LeakingRun(x, a, y, b)[4..])
    ensures Run(s4, LeakingRun(x, a, y, b)[4..])
         == Counting(a, map[x := [a]], map[a.symbol := 1], []).(connected := true, server := {TopicOf(a), TopicOf(b)})
  {
    hide Step, Run, FairRun;
    var es := LeakingRun(x, a, y, b);
    FirstFrame(s4, x, a, y, b);
    var s5 := Step(s4, es[4]);
    var s6 := Step(s5, es[5]);
    var s7 := Step(s6, es[6]);
    SecondLeaves(s7, x, a, y, b);
    var s8 := Step(s7, es[7]);
    var s9 := Step(s8, es[8]);
    LastFrames(s9, x, a, y, b);
    var s10 := Step(s9, es[9]);
    RunsFrom(s4, es, 4);
    RunsFrom(s5, es, 5);
    RunsFrom(s6, es, 6);
    RunsFrom(s7, es, 7);
    RunsFrom(s8, es, 8);
    RunsFrom(s9, es, 9);
    RunsFrom(s10, es, 10);
    RunsFrom(Step(s10, es[10]), es, 11);
  }

  /** From an empty start, for ticker and for kline subscriptions alike: the replay is over, no
      signal is waiting, and the server sends the second topic, to which nobody is subscribed. */
  lemma LeakIsReached(x: string, a: Info, y: string, b: Info)
    requires TwoOfAKind(x, a, y, b)
    ensures FairRun(Start(), LeakingRun(x, a, y, b))
    ensures var s := Run(Start(), LeakingRun(x, a, y, b));
      && s.connected && s.replay.NoReplay? && s.pending == [] && s.table == map[x := [a]]
      && Count(s, TopicOf(b)) == 0 && s.server == {TopicOf(a), TopicOf(b)}
  {
    hide SubscribeInfo, UnsubscribeId, AdjustSubscription, Run, FairRun, Adjusted;
    var es := LeakingRun(x, a, y, b);
    var s0 := Start();
    BothSubscribe(x, a, y, b);
    BothCount(a, b, map[x := [a], y := [b]]);
    var s1 := Step(s0, es[0]);
    var s2 := Step(s1, es[1]);
    var s3 := Step(s2, es[2]);
    var s4 := Step(s3, es[3]);
    RunsFrom(s0, es, 0);
    RunsFrom(s1, es, 1);
    RunsFrom(s2, es, 2);
    RunsFrom(s3, es, 3);
    if a.dataType == Price {
      TickerReplayLeaks(s4, x, a, y, b);
    } else {
      KlineReplayLeaks(s4, x, a, y, b);
    }
  }
}
