/**
 * The replay API used in backtests: it answers the exchange's fetches from
 * series recorded earlier instead of from the network. Reading the recorded
 * quote series also yields the time window the scenario covers.
 */
module MockApi {
  import opened Wrappers
  import opened TimeSeries

  /** `Number.MAX_VALUE`, (2^53 - 1) * 2^971: the start value of the running minimum. */
  const NumberMaxValue: int :=
    179769313486231570814527423731704356798070567525844996598917476803157260780028538760589558632766878171540458953514382464234321326889464182768467546703537516986049910576551282076245490090389328944075868508455133942304583236903222948165808559332123348274797826204144723168738177180919299881250404026184124858368

  /** The earliest and latest quote timestamps found by `read`. */
  datatype Bounds = Bounds(min: int, max: int)

  /** The scenario's time window; `None` stands for an undefined bound. */
  class Scenario {
    var start: Option<int>
    var end: Option<int>

    constructor (start: Option<int>, end: Option<int>)
      ensures this.start == start && this.end == end
    {
      this.start := start;
      this.end := end;
    }

    /** The window becomes [`min`, `max`] only while its start is undefined; a defined window is kept. */
    method Fill(min: int, max: int)
      modifies this
      ensures old(start).None? ==> start == Some(min) && end == Some(max)
      ensures old(start).Some? ==> start == old(start) && end == old(end)
    {
      if start.None? {
        start := Some(min);
        end := Some(max);
      }
    }
  }

  /** The series once `read` has loaded its records from its file. */
  function Hydrate(s: Series, load: string -> seq<Tick>): (h: Series)
    ensures h.source == s.source && h.records == load(s.source)
  {
    Series(s.source, load(s.source))
  }

  /** Every series named by `keys` has at least one record. */
  ghost predicate Loaded(ts: map<string, Series>, keys: set<string>) {
    forall s :: s in keys && s in ts ==> ts[s].records != []
  }

  /**
   * `min` is what the scan over `keys` leaves in the running minimum: the
   * smallest first timestamp among them, or `Number.MAX_VALUE` when that is
   * smaller (in particular when there is none).
   */
  ghost predicate LowBound(min: int, ts: map<string, Series>, keys: set<string>)
    requires keys <= ts.Keys && Loaded(ts, keys)
  {
    min <= NumberMaxValue &&
    (forall s :: s in keys ==> min <= ts[s].records[0].timestamp) &&
    (min == NumberMaxValue || exists s :: s in keys && min == ts[s].records[0].timestamp)
  }

  /**
   * `max` is what the scan over `keys` leaves in the running maximum: the
   * largest last timestamp among them, or 0 when that is larger (in
   * particular when there is none).
   */
  ghost predicate HighBound(max: int, ts: map<string, Series>, keys: set<string>)
    requires keys <= ts.Keys && Loaded(ts, keys)
  {
    max >= 0 &&
    (forall s :: s in keys ==> Last(ts[s].records).timestamp <= max) &&
    (max == 0 || exists s :: s in keys && max == Last(ts[s].records).timestamp)
  }

  /** The state of the scan after the series named by `done`: all loaded, and the running bounds right for them. */
  ghost predicate Scanned(min: int, max: int, ts: map<string, Series>, done: set<string>) {
    done <= ts.Keys && Loaded(ts, done) && LowBound(min, ts, done) && HighBound(max, ts, done)
  }

  /** Scanning one more series, whose records are `h`, keeps the running bounds what they should be. */
  lemma ScanStep(min: int, max: int, ts: map<string, Series>, done: set<string>, s: string, h: Series, low: int, high: int)
    requires s in ts && s !in done && Scanned(min, max, ts, done)
    requires h.records != []
    requires low == if h.records[0].timestamp < min then h.records[0].timestamp else min
    requires high == if Last(h.records).timestamp > max then Last(h.records).timestamp else max
    ensures Scanned(low, high, ts[s := h], done + {s})
  {
    var ts' := ts[s := h];
    assert forall k :: k in done ==> ts'[k] == ts[k];
    if min != NumberMaxValue && low == min {
      var w :| w in done && min == ts[w].records[0].timestamp;
      assert w in done + {s} && low == ts'[w].records[0].timestamp;
    }
    if max != 0 && high == max {
      var w :| w in done && max == Last(ts[w].records).timestamp;
      assert w in done + {s} && high == Last(ts'[w].records).timestamp;
    }
  }

  /** The bounds are determined: two values that both satisfy them are equal. */
  lemma BoundsUnique(a: Bounds, b: Bounds, ts: map<string, Series>)
    requires Loaded(ts, ts.Keys)
    requires LowBound(a.min, ts, ts.Keys) && LowBound(b.min, ts, ts.Keys)
    requires HighBound(a.max, ts, ts.Keys) && HighBound(b.max, ts, ts.Keys)
    ensures a == b
  {
    assert a.min <= b.min && b.min <= a.min;
    assert a.max <= b.max && b.max <= a.max;
  }

  /** With no quote series at all, the window is [`Number.MAX_VALUE`, 0]. */
  lemma NoSeriesBounds(b: Bounds)
    requires LowBound(b.min, map[], {}) && HighBound(b.max, map[], {})
    ensures b == Bounds(NumberMaxValue, 0)
  {
  }

  /**
   * Every record of every loaded quote series whose timestamps ascend lies
   * inside the window the scan found.
   */
  lemma {:induction false} WindowCoversRecords(b: Bounds, ts: map<string, Series>)
    requires Loaded(ts, ts.Keys)
    requires forall s :: s in ts ==> Ascending(ts[s].records)
    requires LowBound(b.min, ts, ts.Keys) && HighBound(b.max, ts, ts.Keys)
    ensures forall s, i :: s in ts && 0 <= i < |ts[s].records| ==>
      b.min <= ts[s].records[i].timestamp <= b.max
  {
    forall s, i | s in ts && 0 <= i < |ts[s].records|
      ensures b.min <= ts[s].records[i].timestamp <= b.max
    {
      var r := ts[s].records;
      assert b.min <= r[0].timestamp && Last(r).timestamp <= b.max;
      if 0 < i {
        assert r[0].timestamp < r[i].timestamp;
      }
      if i < |r| - 1 {
        assert r[i].timestamp < r[|r| - 1].timestamp;
      }
    }
  }

  /** One unread series per key of `feed`, backed by the file `feed` names for it. */
  method SeriesFor(feed: map<string, string>) returns (m: map<string, Series>)
    ensures m.Keys == feed.Keys
    ensures forall s :: s in m ==> m[s] == Series(feed[s], [])
  {
    m := map[];
    var rest := feed.Keys;
    while rest != {}
      invariant rest <= feed.Keys && m.Keys == feed.Keys - rest
      invariant forall s :: s in m ==> m[s] == Series(feed[s], [])
      decreases rest
    {
      var s :| s in rest;
      m := m[s := Series(feed[s], [])];
      rest := rest - {s};
    }
  }

  /** Every series of `m` read from its file. */
  method ReadAll(m: map<string, Series>, load: string -> seq<Tick>) returns (h: map<string, Series>)
    ensures h.Keys == m.Keys
    ensures forall s :: s in h ==> h[s] == Hydrate(m[s], load)
  {
    h := m;
    var rest := m.Keys;
    while rest != {}
      invariant rest <= m.Keys && h.Keys == m.Keys
      invariant forall s :: s in h ==> h[s] == if s in rest then m[s] else Hydrate(m[s], load)
      decreases rest
    {
      var s :| s in rest;
      h := h[s := Hydrate(m[s], load)];
      rest := rest - {s};
    }
  }

  /** Midway through reading `m`: the series still in `rest` are as they were, the others read. */
  ghost predicate ReadExcept(m: map<string, Series>, ts: map<string, Series>, rest: set<string>, load: string -> seq<Tick>) {
    ts.Keys == m.Keys && rest <= m.Keys &&
    forall s :: s in ts ==> ts[s] == if s in rest then m[s] else Hydrate(m[s], load)
  }

  /** Reading one more series of `rest` moves it to the read side. */
  lemma ReadOneMore(m: map<string, Series>, ts: map<string, Series>, rest: set<string>, s: string, load: string -> seq<Tick>)
    requires ReadExcept(m, ts, rest, load) && s in rest
    ensures ReadExcept(m, ts[s := Hydrate(ts[s], load)], rest - {s}, load)
  {
  }

  /**
   * The scan of `read` over the quote series: each is loaded in turn and the
   * running minimum of first timestamps and maximum of last timestamps are
   * kept. A series that loads empty stops the scan there, naming it; the
   * series scanned until then are loaded, the others not yet.
   */
  method Scan(m: map<string, Series>, load: string -> seq<Tick>) returns (ts: map<string, Series>, r: Result<Bounds, string>)
    ensures ts.Keys == m.Keys
    ensures r.Success? ==>
      (forall s :: s in ts ==> ts[s] == Hydrate(m[s], load)) &&
      Loaded(ts, ts.Keys) &&
      LowBound(r.value.min, ts, ts.Keys) && HighBound(r.value.max, ts, ts.Keys)
    ensures r.Failure? ==>
      r.error in m && load(m[r.error].source) == [] &&
      forall s :: s in ts ==> ts[s] == m[s] || ts[s] == Hydrate(m[s], load)
  {
    var min := NumberMaxValue;
    var max := 0;
    ts := m;
    var rest := m.Keys;
    ghost var done: set<string> := {};
    while rest != {}
      invariant ReadExcept(m, ts, rest, load) && done == m.Keys - rest
      invariant Scanned(min, max, ts, done)
      decreases rest
    {
      var s :| s in rest;
      var h := Hydrate(ts[s], load);
      ReadOneMore(m, ts, rest, s, load);
      if h.records == [] {
        ts := ts[s := h];
        return ts, Failure(s);
      }
      var low, high := min, max;
      if h.records[0].timestamp < low {
        low := h.records[0].timestamp;
      }
      if Last(h.records).timestamp > high {
        high := Last(h.records).timestamp;
      }
      ScanStep(min, max, ts, done, s, h, low, high);
      ts := ts[s := h];
      min, max := low, high;
      rest := rest - {s};
      done := done + {s};
    }
    r := Success(Bounds(min, max));
  }

  class MockAPI {
    /** Recorded quote series by market symbol. */
    var tickers: map<string, Series>
    /** Recorded candle series by market symbol. */
    var candles: map<string, Series>

    /** One quote series per key of the feed's tickers and one candle series per key of its candles, none read yet. */
    constructor (feedTickers: map<string, string>, feedCandles: map<string, string>)
      ensures tickers.Keys == feedTickers.Keys && candles.Keys == feedCandles.Keys
      ensures forall s :: s in tickers ==> tickers[s] == Series(feedTickers[s], [])
      ensures forall s :: s in candles ==> candles[s] == Series(feedCandles[s], [])
    {
      var t := SeriesFor(feedTickers);
      var c := SeriesFor(feedCandles);
      tickers, candles := t, c;
    }

    /**
     * `read`: loads every quote series, tracking the least first and the
     * greatest last timestamp; fills the scenario window with them only when
     * its start is undefined; then loads every candle series. A quote series
     * that loads empty has no first record: the scan fails on it, part way,
     * and the scenario and the candle series stay as they were.
     */
    method Read(load: string -> seq<Tick>, scenario: Scenario) returns (r: Result<Bounds, string>)
      modifies this`tickers, this`candles, scenario
      ensures tickers.Keys == old(tickers).Keys
      ensures r.Success? ==>
        (forall s :: s in tickers ==> tickers[s] == Hydrate(old(tickers)[s], load)) &&
        Loaded(tickers, tickers.Keys) &&
        LowBound(r.value.min, tickers, tickers.Keys) &&
        HighBound(r.value.max, tickers, tickers.Keys) &&
        candles.Keys == old(candles).Keys &&
        (forall s :: s in candles ==> candles[s] == Hydrate(old(candles)[s], load)) &&
        (if old(scenario.start).None?
         then scenario.start == Some(r.value.min) && scenario.end == Some(r.value.max)
         else scenario.start == old(scenario.start) && scenario.end == old(scenario.end))
      ensures r.Failure? ==>
        r.error in old(tickers) && load(old(tickers)[r.error].source) == [] &&
        (forall s :: s in tickers ==> tickers[s] == old(tickers)[s] || tickers[s] == Hydrate(old(tickers)[s], load)) &&
        candles == old(candles) &&
        scenario.start == old(scenario.start) && scenario.end == old(scenario.end)
    {
      var ts;
      ts, r := Scan(tickers, load);
      tickers := ts;
      if r.Success? {
        scenario.Fill(r.value.min, r.value.max);
        candles := ReadAll(candles, load);
      }
    }

    /**
     * `fetchTicker(pair, time)`: the record the pair's quote series reports as
     * nearest to `time`; a pair without a quote series has nothing to answer.
     */
    function FetchTicker(pair: string, time: int, nearest: (Series, int) -> (Tick, int)): (r: Option<Tick>)
      reads this
      ensures r.Some? <==> pair in tickers
      ensures r.Some? ==> r.value == nearest(tickers[pair], time).0
    {
      if pair in tickers then Some(nearest(tickers[pair], time).0) else None
    }

    /**
     * `fetchOHLCV(pair, time)`: the candle the pair's candle series reports as
     * nearest to `time`, reshaped by the candle serializer into the exchange
     * library's layout.
     */
    function FetchOHLCV<X>(pair: string, time: int, nearest: (Series, int) -> (Tick, int), outCCXT: Tick -> X): (r: Option<X>)
      reads this
      ensures r.Some? <==> pair in candles
      ensures r.Some? ==> r.value == outCCXT(nearest(candles[pair], time).0)
    {
      if pair in candles then Some(outCCXT(nearest(candles[pair], time).0)) else None
    }
  }
}
