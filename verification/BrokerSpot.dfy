/**
 The broker and the WebSocket manager as objects. Every method is proved to do what the
 steps of `Subscriptions` say.
 */
module Brokers {
  import opened Subscriptions

  class WebSocketManager {
    var tickerSubscribers: Registry
    var klineSubscribers: Registry
    var connected: bool
    var replay: Replay
    ghost var server: set<Topic>

    constructor ()
      ensures View() == Start()
    {
      tickerSubscribers, klineSubscribers, connected, replay, server := map[], map[], false, NoReplay, {};
    }

    /** The manager's part of a system: no table, no waiting signals. */
    ghost function View(): System
      reads this
    {
      System(map[], [], tickerSubscribers, klineSubscribers, connected, replay, server)
    }

    method SendPublicChannelMessage(t: Topic, subscribe: bool)
      modifies this`server
      ensures View() == SendFrame(old(View()), t, subscribe)
    {
      if connected {
        server := if subscribe then server + {t} else server - {t};
      }
    }

    method Adjust(t: Topic, subscribe: bool)
      modifies this
      ensures View() == AdjustSubscription(old(View()), t, subscribe)
    {
      var registry := if t.channel == TickerChannel then tickerSubscribers else klineSubscribers;
      var previous := if t.symbol in registry then registry[t.symbol] else 0;
      var moved := previous + if subscribe then 1 else -1;
      var current: nat := if moved >= 0 then moved else 0;
      registry := if current == 0 then registry - {t.symbol} else registry[t.symbol := current];
      if t.channel == TickerChannel {
        tickerSubscribers := registry;
      } else {
        klineSubscribers := registry;
      }
      if (previous > 0) != (current > 0) {
        SendPublicChannelMessage(t, current > 0);
      }
    }

    method Connect(order: seq<string>)
      modifies this
      ensures View() == Step(old(View()), Event.Connect(order))
    {
      if !connected {
        connected, server, replay := true, {}, Tickers(order);
      }
    }

    /** The replay up to its next pause. */
    method ResubscribeNext(order: seq<string>)
      modifies this
      ensures View() == Step(old(View()), ReplayNext(order))
    {
      if !connected {
        return;
      }
      match replay
      case NoReplay =>
      case Tickers(left) =>
        if left == [] {
          replay := Klines(order);
        } else {
          replay := Tickers(left[1..]);
          SendPublicChannelMessage(Topic(TickerChannel, left[0]), true);
        }
      case Klines(left) =>
        if left == [] {
          replay := NoReplay;
        } else {
          replay := Klines(left[1..]);
          SendPublicChannelMessage(Topic(OhlcChannel, left[0]), true);
        }
    }

    /** The whole replay when nothing else runs meanwhile. */
    method ResubscribePublicChannels(tickers: seq<string>, klines: seq<string>)
      requires Lists(tickers, tickerSubscribers) && Lists(klines, klineSubscribers)
      modifies this`server
      ensures server == if !connected then old(server) else
        old(server) + (set symbol <- tickerSubscribers :: Topic(TickerChannel, symbol))
                    + (set symbol <- klineSubscribers :: Topic(OhlcChannel, symbol))
    {
      for i := 0 to |tickers|
        invariant connected ==> server == old(server) + set symbol <- tickers[..i] :: Topic(TickerChannel, symbol)
        invariant !connected ==> server == old(server)
      {
        SendPublicChannelMessage(Topic(TickerChannel, tickers[i]), true);
        assert tickers[..i + 1] == tickers[..i] + [tickers[i]];
      }
      ghost var half := server;
      assert tickers[..|tickers|] == tickers;
      for i := 0 to |klines|
        invariant connected ==> server == half + set symbol <- klines[..i] :: Topic(OhlcChannel, symbol)
        invariant !connected ==> server == old(server)
      {
        SendPublicChannelMessage(Topic(OhlcChannel, klines[i]), true);
        assert klines[..i + 1] == klines[..i] + [klines[i]];
      }
      assert klines[..|klines|] == klines;
    }

    method Drop()
      modifies this
      ensures View() == Step(old(View()), Event.Drop)
    {
      connected, server, replay := false, {}, NoReplay;
    }
  }

  lemma SignalsFirst(infos: seq<Info>, subscribe: bool)
    requires infos != []
    ensures Signals(infos, subscribe) == Signals([infos[0]], subscribe) + Signals(infos[1..], subscribe)
  {
    assert [infos[0]][1..] == [];
  }

  lemma NoSignals()
    ensures Signals([], false) == []
  {
  }

  class BrokerSpot {
    const manager: WebSocketManager
    var subscriptions: map<string, seq<Info>>
    /** Tasks handed to the event loop, in the order it will run them. */
    var pending: seq<Signal>

    constructor (manager: WebSocketManager)
      requires manager.View() == Start()
      ensures this.manager == manager && View() == Start()
    {
      this.manager, subscriptions, pending := manager, map[], [];
    }

    ghost function View(): System
      reads this, manager
    {
      manager.View().(table := subscriptions, pending := pending)
    }

    method SignalWs(info: Info, subscribe: bool)
      modifies this`pending
      ensures pending == old(pending) + Signals([info], subscribe)
    {
      match info.dataType
      case Price => pending := pending + [Signal(Topic(TickerChannel, info.symbol), subscribe)];
      case Kline => pending := pending + [Signal(Topic(OhlcChannel, info.symbol), subscribe)];
      case User =>
    }

    method Subscribe(id: string, info: Info)
      modifies this
      ensures View() == SubscribeInfo(old(View()), id, info)
    {
      var infos := if id in subscriptions then subscriptions[id] else [];
      if info !in infos {
        subscriptions := subscriptions[id := infos + [info]];
        SignalWs(info, true);
      }
    }

    method Unsubscribe(id: string)
      modifies this
      ensures View() == UnsubscribeId(old(View()), id)
    {
      if id !in subscriptions {
        return;
      }
      hide Signals;
      var infos := subscriptions[id];
      assert infos[|infos|..] == [] && Signals([], false) == [] by { NoSignals(); }
      assert infos[0..] == infos;
      subscriptions := subscriptions - {id};
      for i := 0 to |infos|
        invariant pending + Signals(infos[i..], false) == old(pending) + Signals(infos, false)
        invariant subscriptions == old(subscriptions) - {id}
      {
        SignalsFirst(infos[i..], false);
        assert infos[i..][1..] == infos[i + 1..];
        SignalWs(infos[i], false);
      }
    }

    method RunNextSignal()
      modifies this`pending, manager
      ensures View() == Step(old(View()), RunSignal)
    {
      if pending != [] {
        var next := pending[0];
        pending := pending[1..];
        manager.Adjust(next.topic, next.subscribe);
      }
    }

    method Handle(e: Event)
      modifies this, manager
      ensures View() == Step(old(View()), e)
    {
      match e
      case Subscribe(id, info) => Subscribe(id, info);
      case Unsubscribe(id) => Unsubscribe(id);
      case RunSignal => RunNextSignal();
      case Connect(order) => manager.Connect(order);
      case ReplayNext(order) => manager.ResubscribeNext(order);
      case Drop => manager.Drop();
    }

    /** What the event loop makes of a sequence of events is a run of the system. */
    method RunLoop(events: seq<Event>)
      modifies this, manager
      ensures View() == Run(old(View()), events)
    {
      for i := 0 to |events|
        invariant Run(View(), events[i..]) == Run(old(View()), events)
      {
        assert events[i..][0] == events[i] && events[i..][1..] == events[i + 1..];
        Handle(events[i]);
      }
    }
  }
}
