/** Tops in a stream of prices: the highest price of a window, once it has been left far enough. */
module TopDetection {
  import opened Options

  datatype PricePoint = PricePoint(price: real, timestamp: int)

  datatype Detector = Detector(lookback: int, minDrop: real, recent: seq<PricePoint>, top: Option<PricePoint>)

  function Since(points: seq<PricePoint>, cutoff: int): seq<PricePoint>
  {
    if points == [] then []
    else (if points[0].timestamp >= cutoff then [points[0]] else []) + Since(points[1..], cutoff)
  }

  /** The first of the highest points. */
  function Highest(points: seq<PricePoint>): PricePoint
    requires points != []
  {
    var n := |points| - 1;
    if n == 0 then points[0] else
      var h := Highest(points[..n]);
      if points[n].price > h.price then points[n] else h
  }

  function Window(d: Detector, p: PricePoint): seq<PricePoint>
  {
    Since(d.recent + [p], p.timestamp - d.lookback)
  }

  /** The top that a new price confirms, if any. */
  function Confirmed(d: Detector, p: PricePoint): Option<PricePoint>
  {
    var window := Window(d, p);
    if window == [] then None else
      var highest := Highest(window);
      if highest.price == 0.0 || p.price >= highest.price then None
      else if (highest.price - p.price) / highest.price * 100.0 < d.minDrop then None
      else if d.top.Some? && highest.timestamp == d.top.value.timestamp then None
      else Some(highest)
  }

  function Update(d: Detector, p: PricePoint): Detector
  {
    d.(recent := Window(d, p), top := if Confirmed(d, p).Some? then Confirmed(d, p) else d.top)
  }

  function Feed(d: Detector, points: seq<PricePoint>): Detector
  {
    if points == [] then d else Update(Feed(d, points[..|points| - 1]), points[|points| - 1])
  }

  function Fresh(lookback: int, minDrop: real): Detector
  {
    Detector(lookback, minDrop, [], None)
  }

  // ----- The retained prices and the whole history -----

  predicate Ordered(points: seq<PricePoint>)
  {
    forall i, j :: 0 <= i < j < |points| ==> points[i].timestamp <= points[j].timestamp
  }

  lemma {:induction false} SinceExtend(points: seq<PricePoint>, p: PricePoint, cutoff: int)
    ensures Since(points + [p], cutoff) == Since(points, cutoff) + if p.timestamp >= cutoff then [p] else []
    decreases points
  {
    if points == [] {
      assert points + [p] == [p] && [p][1..] == [];
    } else {
      assert (points + [p])[0] == points[0] && (points + [p])[1..] == points[1..] + [p];
      SinceExtend(points[1..], p, cutoff);
    }
  }

  lemma SinceFirst(p: PricePoint, rest: seq<PricePoint>, cutoff: int)
    ensures Since([p] + rest, cutoff) ==
      if p.timestamp >= cutoff then [p] + Since(rest, cutoff) else Since(rest, cutoff)
  {
    assert ([p] + rest)[1..] == rest;
  }

  /** Cutting twice, the second time later, is cutting once. */
  lemma {:induction false} SinceTwice(points: seq<PricePoint>, early: int, late: int)
    requires early <= late
    ensures Since(Since(points, early), late) == Since(points, late)
    decreases points
  {
    if points != [] {
      hide Since;
      assert points == [points[0]] + points[1..];
      SinceTwice(points[1..], early, late);
      SinceFirst(points[0], points[1..], early);
      SinceFirst(points[0], points[1..], late);
      SinceFirst(points[0], Since(points[1..], early), late);
    }
  }

  lemma FeedLast(d: Detector, points: seq<PricePoint>, p: PricePoint)
    ensures Feed(d, points + [p]) == Update(Feed(d, points), p)
    ensures Feed(d, []) == d && Since([], 0) == []
  {
    assert (points + [p])[..|points|] == points;
  }

  lemma {:induction false} FeedKeepsSettings(d: Detector, points: seq<PricePoint>)
    ensures Feed(d, points).lookback == d.lookback && Feed(d, points).minDrop == d.minDrop
    decreases points
  {
    if points != [] {
      FeedKeepsSettings(d, points[..|points| - 1]);
    }
  }

  /** Dropping old prices as they come loses nothing of the current window. */
  lemma {:induction false} RetainedIsWindow(lookback: int, minDrop: real, points: seq<PricePoint>)
    requires points != [] && Ordered(points)
    ensures Feed(Fresh(lookback, minDrop), points).recent == Since(points, points[|points| - 1].timestamp - lookback)
    decreases points
  {
    hide Since, Feed, Confirmed;
    var n := |points| - 1;
    var last, before := points[n], points[..n];
    assert points == before + [last];
    FeedLast(Fresh(lookback, minDrop), before, last);
    FeedKeepsSettings(Fresh(lookback, minDrop), before);
    var recent := Feed(Fresh(lookback, minDrop), before).recent;
    SinceExtend(recent, last, last.timestamp - lookback);
    SinceExtend(before, last, last.timestamp - lookback);
    if before != [] {
      RetainedIsWindow(lookback, minDrop, before);
      SinceTwice(before, before[n - 1].timestamp - lookback, last.timestamp - lookback);
    }
  }

  // ----- What is reported -----

  /** No point is higher, and none before it as high. */
  predicate FirstHighest(points: seq<PricePoint>, p: PricePoint)
  {
    exists i :: 0 <= i < |points| && points[i] == p &&
      (forall j :: 0 <= j < |points| ==> points[j].price <= p.price) &&
        (forall j :: 0 <= j < i ==> points[j].price < p.price)
  }

  lemma {:induction false} HighestIsFirst(points: seq<PricePoint>)
    requires points != []
    ensures FirstHighest(points, Highest(points))
    ensures forall p :: FirstHighest(points, p) ==> p == Highest(points)
    decreases points
  {
    var n := |points| - 1;
    if n > 0 {
      var before := points[..n];
      HighestIsFirst(before);
      var h := Highest(before);
      var i :| 0 <= i < n && before[i] == h &&
        (forall j :: 0 <= j < n ==> before[j].price <= h.price) &&
          (forall j :: 0 <= j < i ==> before[j].price < h.price);
      assert forall j :: 0 <= j < n ==> points[j] == before[j];
      var at := if points[n].price > h.price then n else i;
      assert points[at] == Highest(points);
    } else {
      assert points[0] == Highest(points);
    }
  }

  /** The price at index `i` of a history was answered with `top`. */
  predicate ReportedAt(lookback: int, minDrop: real, history: seq<PricePoint>, i: int, top: PricePoint)
  {
    0 <= i < |history| && Confirmed(Feed(Fresh(lookback, minDrop), history[..i]), history[i]) == Some(top)
  }

  /** And no later one was answered at all. */
  ghost predicate LastReport(lookback: int, minDrop: real, history: seq<PricePoint>, i: int, top: PricePoint)
  {
    ReportedAt(lookback, minDrop, history, i, top) &&
    forall j, other :: i < j < |history| ==> !ReportedAt(lookback, minDrop, history, j, other)
  }

  lemma ReportedBefore(lookback: int, minDrop: real, before: seq<PricePoint>, last: PricePoint, i: int, top: PricePoint)
    requires i < |before|
    ensures ReportedAt(lookback, minDrop, before + [last], i, top) <==> ReportedAt(lookback, minDrop, before, i, top)
  {
    if 0 <= i {
      assert (before + [last])[..i] == before[..i];
    }
  }

  /** The top that is kept is the one reported last. */
  lemma {:induction false} TopIsLastReport(lookback: int, minDrop: real, history: seq<PricePoint>)
    ensures var d := Feed(Fresh(lookback, minDrop), history);
      if d.top.Some? then exists i :: LastReport(lookback, minDrop, history, i, d.top.value)
      else forall i, top :: !ReportedAt(lookback, minDrop, history, i, top)
    decreases history
  {
    if history != [] {
      var n := |history| - 1;
      var before, last := history[..n], history[n];
      assert history == before + [last];
      hide Confirmed;
      FeedLast(Fresh(lookback, minDrop), before, last);
      hide Feed;
      TopIsLastReport(lookback, minDrop, before);
      forall i, top | i < n
        ensures ReportedAt(lookback, minDrop, history, i, top) <==> ReportedAt(lookback, minDrop, before, i, top)
      {
        ReportedBefore(lookback, minDrop, before, last, i, top);
      }
      var d0, d := Feed(Fresh(lookback, minDrop), before), Feed(Fresh(lookback, minDrop), history);
      if Confirmed(d0, last).Some? {
        assert LastReport(lookback, minDrop, history, n, d.top.value);
      } else if d0.top.Some? {
        var i :| LastReport(lookback, minDrop, before, i, d0.top.value);
        assert LastReport(lookback, minDrop, history, i, d0.top.value);
      }
    }
  }

  lemma ReportedWith(lookback: int, minDrop: real, history: seq<PricePoint>, p: PricePoint, top: PricePoint)
    requires Ordered(history + [p])
    ensures var d := Feed(Fresh(lookback, minDrop), history);
      Confirmed(d, p) == Some(top) <==>
        FirstHighest(Since(history + [p], p.timestamp - lookback), top) && top.price != 0.0 && p.price < top.price &&
        (top.price - p.price) / top.price * 100.0 >= minDrop && (d.top.Some? ==> top.timestamp != d.top.value.timestamp)
  {
    var d := Feed(Fresh(lookback, minDrop), history);
    var all := history + [p];
    assert all[..|all| - 1] == history;
    RetainedIsWindow(lookback, minDrop, all);
    FeedKeepsSettings(Fresh(lookback, minDrop), history);
    assert Feed(Fresh(lookback, minDrop), all) == Update(d, p);
    var window := Window(d, p);
    assert window == Since(all, p.timestamp - lookback);
    if window != [] {
      HighestIsFirst(window);
    }
  }

  /** In terms of the whole history: a price is reported exactly when it is the highest of the
      window, the last price lies far enough under it, and it was not the last top reported. */
  lemma ReportedIff(lookback: int, minDrop: real, history: seq<PricePoint>, p: PricePoint, top: PricePoint)
    requires Ordered(history + [p])
    ensures ReportedAt(lookback, minDrop, history + [p], |history|, top) <==>
      FirstHighest(Since(history + [p], p.timestamp - lookback), top) && top.price != 0.0 && p.price < top.price &&
      (top.price - p.price) / top.price * 100.0 >= minDrop &&
      forall i, last :: LastReport(lookback, minDrop, history, i, last) ==> top.timestamp != last.timestamp
  {
    hide Feed, Confirmed, Since, FirstHighest, Ordered;
    ReportedWith(lookback, minDrop, history, p, top);
    TopIsLastReport(lookback, minDrop, history);
    assert (history + [p])[..|history|] == history;
    var d := Feed(Fresh(lookback, minDrop), history);
    forall i, last | LastReport(lookback, minDrop, history, i, last) ensures d.top == Some(last) {
      if d.top.Some? {
        var k :| LastReport(lookback, minDrop, history, k, d.top.value);
        assert k == i;
      }
    }
  }

  // ----- The detector as an object -----

  class TopDetector {
    const lookbackWindow: int
    const minDropToConfirm: real
    var recentPrices: seq<PricePoint>
    var currentTop: Option<PricePoint>

    constructor (lookbackWindow: int, minDropToConfirm: real)
      ensures View() == Fresh(lookbackWindow, minDropToConfirm)
    {
      this.lookbackWindow, this.minDropToConfirm := lookbackWindow, minDropToConfirm;
      recentPrices, currentTop := [], None;
    }

    function View(): Detector
      reads this
    {
      Detector(lookbackWindow, minDropToConfirm, recentPrices, currentTop)
    }

    method Observe(price: real, timestamp: int) returns (top: Option<real>)
      modifies this
      ensures View() == Update(old(View()), PricePoint(price, timestamp))
      ensures var confirmed := Confirmed(old(View()), PricePoint(price, timestamp));
        top == if confirmed.Some? then Some(confirmed.value.price) else None
    {
      recentPrices := recentPrices + [PricePoint(price, timestamp)];
      ForgetOld(timestamp - lookbackWindow);
      if recentPrices == [] {
        return None;
      }
      var highest := FindHighest();
      if highest.price == 0.0 || price >= highest.price {
        return None;
      }
      var drop := (highest.price - price) / highest.price * 100.0;
      if drop >= minDropToConfirm && (currentTop.None? || highest.timestamp != currentTop.value.timestamp) {
        currentTop := Some(highest);
        return Some(highest.price);
      }
      return None;
    }

    method ForgetOld(cutoff: int)
      modifies this`recentPrices
      ensures recentPrices == Since(old(recentPrices), cutoff)
    {
      var kept := [];
      for i := 0 to |recentPrices|
        invariant recentPrices == old(recentPrices)
        invariant kept == Since(recentPrices[..i], cutoff)
      {
        SinceExtend(recentPrices[..i], recentPrices[i], cutoff);
        assert recentPrices[..i + 1] == recentPrices[..i] + [recentPrices[i]];
        if recentPrices[i].timestamp >= cutoff {
          kept := kept + [recentPrices[i]];
        }
      }
      assert recentPrices[..|recentPrices|] == recentPrices;
      recentPrices := kept;
    }

    method FindHighest() returns (highest: PricePoint)
      requires recentPrices != []
      ensures highest == Highest(recentPrices)
    {
      highest := recentPrices[0];
      for i := 1 to |recentPrices|
        invariant highest == Highest(recentPrices[..i])
      {
        assert recentPrices[..i + 1][..i] == recentPrices[..i];
        if recentPrices[i].price > highest.price {
          highest := recentPrices[i];
        }
      }
      assert recentPrices[..|recentPrices|] == recentPrices;
    }
  }
}
