/**
 * The ticker family: producers that poll the exchange, append what they get
 * to an append-only series and mark the exchange dirty so that the engine
 * loop ticks its strategies. A quote ticker appends every answer, a candle
 * ticker appends the batch of candles since its cursor, and an order ticker
 * appends a snapshot only when the order's status or filled amount changed.
 */
module Tickers {
  import opened Wrappers
  import opened TimeSeries
  import opened Market

  /** The three ticker classes. */
  datatype Kind = QuoteKind | CandleKind | OrderKind

  /** Whether the scenario replays recorded data or runs against a live exchange. */
  datatype Mode = Live | Playback

  // ----- file names and timeouts -----

  /** The file extension of each kind's series. */
  function Extension(kind: Kind): (ext: string)
    ensures |ext| >= 5 && '.' !in ext
  {
    match kind
    case QuoteKind => "ticker"
    case CandleKind => "ohlcv"
    case OrderKind => "order"
  }

  /** The position of the first `c` in `s`, if any. */
  function IndexOf(s: string, c: char): (r: Option<nat>)
    ensures r.None? <==> c !in s
    ensures r.Some? ==> r.value < |s| && s[r.value] == c && c !in s[..r.value]
  {
    if s == [] then None
    else if s[0] == c then Some(0)
    else match IndexOf(s[1..], c)
      case None => None
      case Some(i) => assert s[..i + 1] == [s[0]] + s[1..][..i]; Some(i + 1)
  }

  /**
   * String `replace` with a one-character string pattern: only the FIRST
   * occurrence of `from` becomes `to`; every other character stays.
   */
  function ReplaceFirst(s: string, from: char, to: char): (r: string)
    ensures |r| == |s|
  {
    if s == [] then []
    else if s[0] == from then [to] + s[1..]
    else [s[0]] + ReplaceFirst(s[1..], from, to)
  }

  /** Position by position: the first `from` is now `to`, and every other character is unchanged. */
  lemma {:induction false} ReplaceFirstAt(s: string, from: char, to: char, i: nat)
    requires i < |s|
    ensures ReplaceFirst(s, from, to)[i] == if IndexOf(s, from) == Some(i) then to else s[i]
  {
    if s[0] != from && i > 0 {
      ReplaceFirstAt(s[1..], from, to, i - 1);
    }
  }

  /** A string without `from` is left as it is. */
  lemma {:induction false} ReplaceFirstAbsent(s: string, from: char, to: char)
    requires from !in s
    ensures ReplaceFirst(s, from, to) == s
  {
    forall i | 0 <= i < |s| ensures ReplaceFirst(s, from, to)[i] == s[i] {
      ReplaceFirstAt(s, from, to, i);
    }
  }

  /** `filename()`: the symbol with its first "/" turned into "-", a dot, and the kind's extension. */
  function Filename(symbol: string, kind: Kind): (name: string)
    ensures |name| == |symbol| + 1 + |Extension(kind)|
    ensures name[|symbol|] == '.' && name[|symbol| + 1..] == Extension(kind)
  {
    ReplaceFirst(symbol, '/', '-') + "." + Extension(kind)
  }

  /**
   * A market symbol "BASE/QUOTE" whose base holds no "/" is stored in
   * "BASE-QUOTE.<extension>"; a "/" inside the quote survives, because only
   * the first one is replaced.
   */
  lemma {:induction false} PairFilename(base: string, quote: string, kind: Kind)
    requires '/' !in base
    ensures Filename(base + "/" + quote, kind) == base + "-" + quote + "." + Extension(kind)
  {
    SlashReplaced(base, quote);
  }

  /** In "BASE/QUOTE" with no "/" in BASE, the first "/" is the separator, and it alone becomes "-". */
  lemma {:induction false} SlashReplaced(base: string, quote: string)
    requires '/' !in base
    ensures ReplaceFirst(base + "/" + quote, '/', '-') == base + "-" + quote
  {
    var s := base + "/" + quote;
    if base == [] {
      assert s == ['/'] + quote;
      assert s[1..] == quote;
    } else {
      assert s[0] == base[0] && s[1..] == base[1..] + "/" + quote;
      SlashReplaced(base[1..], quote);
      assert base + "-" + quote == [base[0]] + (base[1..] + "-" + quote);
    }
  }

  /** The fourth character from the end of a name ending in `e` is that of `e`. */
  lemma MarkOf(x: string, e: string)
    requires |e| >= 4
    ensures (x + e)[|x + e| - 4] == e[|e| - 4]
  {
  }

  /**
   * The fourth character from the end of each extension, 'c', 'h' or 'r',
   * tells the kinds apart.
   */
  function Mark(kind: Kind): (c: char)
    ensures c == Extension(kind)[|Extension(kind)| - 4]
  {
    match kind
    case QuoteKind => 'c'
    case CandleKind => 'h'
    case OrderKind => 'r'
  }

  /** Two series files of different kinds never share a name, whatever their symbols. */
  lemma {:induction false} FilenameDeterminesKind(s1: string, k1: Kind, s2: string, k2: Kind)
    requires Filename(s1, k1) == Filename(s2, k2)
    ensures k1 == k2
  {
    var p1, p2 := ReplaceFirst(s1, '/', '-') + ".", ReplaceFirst(s2, '/', '-') + ".";
    assert p1 + Extension(k1) == p2 + Extension(k2);
    MarkOf(p1, Extension(k1));
    MarkOf(p2, Extension(k2));
    assert Mark(k1) == Mark(k2);
  }

  /** The sleep between two polls: 1 when replaying, otherwise 35 s for candles and 5 s for quotes and orders. */
  function PollTimeout(mode: Mode, kind: Kind): (t: nat)
    ensures t > 0
    ensures mode == Playback <==> t == 1
    ensures mode == Live ==> (t == 35000 <==> kind == CandleKind) && (kind != CandleKind <==> t == 5000)
  {
    if mode == Playback then 1
    else if kind == CandleKind then 35000
    else 5000
  }

  // ----- what one poll does to a series -----

  /** The candle ticker's cursor: the last record's timestamp, or the scenario time for an empty series. */
  function Cursor(s: seq<Tick>, scenarioTime: int): (since: int)
    ensures s == [] ==> since == scenarioTime
    ensures s != [] ==> since == s[|s| - 1].timestamp
  {
    if s == [] then scenarioTime else Last(s).timestamp
  }

  /** On a series whose timestamps ascend, the cursor is at or after every record. */
  lemma CursorBoundsSeries(s: seq<Tick>, scenarioTime: int)
    requires Ascending(s)
    ensures forall i :: 0 <= i < |s| ==> s[i].timestamp <= Cursor(s, scenarioTime)
  {
  }

  /**
   * Candles that ascend and all lie strictly after the cursor keep an
   * ascending series ascending once appended.
   */
  lemma {:induction false} AppendAfterCursor(s: seq<Tick>, candles: seq<Tick>, scenarioTime: int)
    requires Ascending(s) && Ascending(candles)
    requires forall i :: 0 <= i < |candles| ==> candles[i].timestamp > Cursor(s, scenarioTime)
    ensures Ascending(s + candles)
  {
    var t := s + candles;
    forall i, j | 0 <= i < j < |t| ensures t[i].timestamp < t[j].timestamp {
      if j < |s| {
        assert t[i] == s[i] && t[j] == s[j];
      } else if i < |s| {
        CursorBoundsSeries(s, scenarioTime);
        assert t[i] == s[i] && t[j] == candles[j - |s|];
      } else {
        assert t[i] == candles[i - |s|] && t[j] == candles[j - |s|];
      }
    }
  }

  /** Two order snapshots that agree on status and filled amount. */
  predicate SameState(a: Tick, b: Tick)
    requires a.Snapshot? && b.Snapshot?
  {
    a.status == b.status && a.filled == b.filled
  }

  /**
   * An order ticker's series: snapshots only, and no snapshot repeats the
   * status and filled amount of the one before it.
   */
  ghost predicate OrderLog(s: seq<Tick>) {
    (forall i :: 0 <= i < |s| ==> s[i].Snapshot?) &&
    (forall i :: 0 < i < |s| ==> !SameState(s[i - 1], s[i]))
  }

  /** `hasChanged`: the series is empty, or the last snapshot's status or filled amount differs from `tick`'s. */
  function HasChanged(s: seq<Tick>, tick: Tick): (changed: bool)
    requires tick.Snapshot? && (s != [] ==> Last(s).Snapshot?)
    ensures changed <==> s == [] || !SameState(Last(s), tick)
  {
    if s == [] then true
    else if Last(s).status != tick.status then true
    else if Last(s).filled != tick.filled then true
    else false
  }

  /** A snapshot is recorded only if it differs from the last one, which keeps an order log an order log. */
  lemma ChangedKeepsLog(s: seq<Tick>, tick: Tick)
    requires OrderLog(s) && tick.Snapshot?
    ensures HasChanged(s, tick) ==> OrderLog(s + [tick])
    ensures !HasChanged(s, tick) ==> s != [] && SameState(Last(s), tick)
  {
  }

  /**
   * What one poll meets: the exchange's quote or order snapshot, its candles
   * since a given time, and the scenario clock at that moment (a candle step
   * reads the clock afresh each time).
   */
  datatype Poll = Poll(tick: Tick, candles: int -> seq<Tick>, time: int)

  /** A poll's answer fits the ticker: an order ticker only ever gets snapshots. */
  predicate Fits(kind: Kind, p: Poll) {
    kind == OrderKind ==> p.tick.Snapshot?
  }

  /** Every answer in `polls` fits the ticker. */
  predicate AllFit(kind: Kind, polls: seq<Poll>) {
    forall i :: 0 <= i < |polls| ==> Fits(kind, polls[i])
  }

  /** The series after one step of a ticker of `kind`. */
  ghost function After(kind: Kind, s: seq<Tick>, p: Poll): (r: seq<Tick>)
    requires Fits(kind, p) && (kind == OrderKind ==> OrderLog(s))
    ensures s <= r
    ensures kind == OrderKind ==> OrderLog(r)
  {
    match kind
    case QuoteKind => s + [p.tick]
    case CandleKind => s + p.candles(Cursor(s, p.time))
    case OrderKind =>
      ChangedKeepsLog(s, p.tick);
      if HasChanged(s, p.tick) then s + [p.tick] else s
  }

  /**
   * The candle ticker filters nothing: when the exchange's answer includes a
   * candle stamped at the cursor itself, that candle is recorded a second
   * time and the series stops ascending.
   */
  lemma InclusiveFetchRepeatsLast(s: seq<Tick>, c: Tick, tick: Tick, time: int)
    requires s != [] && c.timestamp == Last(s).timestamp
    ensures !Ascending(After(CandleKind, s, Poll(tick, (since: int) => [c], time)))
  {
    var r := After(CandleKind, s, Poll(tick, (since: int) => [c], time));
    assert r[|s| - 1] == Last(s) && r[|s|] == c;
  }

  /** The series after the steps for `polls`, one after another. */
  ghost function Replay(kind: Kind, s: seq<Tick>, polls: seq<Poll>): (r: seq<Tick>)
    requires AllFit(kind, polls)
    requires kind == OrderKind ==> OrderLog(s)
    ensures kind == OrderKind ==> OrderLog(r)
    ensures s <= r
    decreases |polls|
  {
    if polls == [] then s
    else
      Replay(kind, After(kind, s, polls[0]), polls[1..])
  }

  lemma {:induction false} ReplaySnoc(kind: Kind, s: seq<Tick>, polls: seq<Poll>, p: Poll)
    requires AllFit(kind, polls) && Fits(kind, p)
    requires kind == OrderKind ==> OrderLog(s)
    ensures Replay(kind, s, polls + [p]) == After(kind, Replay(kind, s, polls), p)
    decreases |polls|
  {
    if polls != [] {
      assert (polls + [p])[1..] == polls[1..] + [p];
      assert AllFit(kind, polls[1..]);
      ReplaySnoc(kind, After(kind, s, polls[0]), polls[1..], p);
    } else {
      assert Replay(kind, After(kind, s, p), []) == After(kind, s, p);
    }
  }

  /** Replaying the first `n + 1` answers is one more step after replaying the first `n`. */
  lemma ReplayNext(kind: Kind, s: seq<Tick>, polls: seq<Poll>, n: nat)
    requires n < |polls| && AllFit(kind, polls)
    requires kind == OrderKind ==> OrderLog(s)
    ensures AllFit(kind, polls[..n]) && AllFit(kind, polls[..n + 1])
    ensures Replay(kind, s, polls[..n + 1]) ==
      After(kind, Replay(kind, s, polls[..n]), polls[n])
  {
    assert AllFit(kind, polls[..n]);
    assert polls[..n + 1] == polls[..n] + [polls[n]];
    ReplaySnoc(kind, s, polls[..n], polls[n]);
  }

  /**
   * Polling an order whose status and filled amount then stay the same
   * records it once: the second identical answer appends nothing.
   */
  lemma IdenticalPollsRecordOnce(s: seq<Tick>, first: Poll, second: Poll)
    requires OrderLog(s) && first.tick.Snapshot? && second.tick.Snapshot? && SameState(first.tick, second.tick)
    ensures Replay(OrderKind, s, [first, second]) ==
      (if HasChanged(s, first.tick) then s + [first.tick] else s)
  {
    ReplaySnoc(OrderKind, s, [first], second);
    assert [first] + [second] == [first, second];
    ReplaySnoc(OrderKind, s, [], first);
    assert [] + [first] == [first];
  }

  /** An extension differs from the sequence it extends exactly when it is longer. */
  lemma ExtensionGrows(a: seq<Tick>, b: seq<Tick>)
    requires a <= b
    ensures (b != a) == (|b| > |a|)
  {
  }

  // ----- the ticker object -----

  class Ticker {
    const kind: Kind
    const symbol: string
    const exchange: Exchange
    /** Milliseconds slept between two polls. */
    const timeout: nat
    /** The order an order ticker follows; the others follow none. */
    const orderId: Option<string>
    /** The records appended so far. */
    var series: seq<Tick>
    /** The ticker thread's running flag, which `kill` clears. */
    var running: bool

    ghost predicate Valid()
      reads this
    {
      (kind == OrderKind <==> orderId.Some?) &&
      (kind == OrderKind ==> OrderLog(series))
    }

    /**
     * A ticker of `kind` on `symbol`, with the timeout the scenario mode
     * calls for, an empty series and a running thread; an order ticker also
     * carries the id of the order it follows.
     */
    constructor (exchange: Exchange, symbol: string, kind: Kind, orderId: Option<string>, mode: Mode)
      requires kind == OrderKind <==> orderId.Some?
      ensures Valid()
      ensures this.exchange == exchange && this.symbol == symbol && this.kind == kind && this.orderId == orderId
      ensures timeout == PollTimeout(mode, kind)
      ensures series == [] && running
    {
      this.exchange := exchange;
      this.symbol := symbol;
      this.kind := kind;
      this.orderId := orderId;
      timeout := PollTimeout(mode, kind);
      series := [];
      running := true;
    }

    /** `Ticker.step`: appends the fetched quote and marks the exchange dirty. */
    method StepQuote(tick: Tick)
      requires kind == QuoteKind
      modifies this`series, exchange`dirty
      ensures series == old(series) + [tick]
      ensures exchange.dirty
    {
      series := series + [tick];
      exchange.Invalidate();
    }

    /**
     * `OHLCVTicker.step`: fetches the candles since the cursor, appends them
     * one by one in the order received and marks the exchange dirty, even
     * when no candle came back. Returns the cursor it used.
     */
    method StepCandles(fetch: int -> seq<Tick>, scenarioTime: int) returns (since: int)
      requires kind == CandleKind
      modifies this`series, exchange`dirty
      ensures since == (if old(series) == [] then scenarioTime else Last(old(series)).timestamp)
      ensures series == old(series) + fetch(since)
      ensures |series| == |old(series)| + |fetch(since)|
      ensures exchange.dirty
    {
      since := if series == [] then scenarioTime else Last(series).timestamp;
      var candles := fetch(since);
      for i := 0 to |candles|
        invariant series == old(series) + candles[..i]
      {
        series := series + [candles[i]];
        assert candles[..i + 1] == candles[..i] + [candles[i]];
      }
      assert candles[..|candles|] == candles;
      exchange.Invalidate();
    }

    /**
     * `OrderTicker.step`: appends the fetched snapshot and marks the exchange
     * dirty only when it differs from the last one recorded; otherwise
     * nothing changes.
     */
    method StepOrder(tick: Tick) returns (appended: bool)
      requires Valid() && kind == OrderKind && tick.Snapshot?
      modifies this`series, exchange`dirty
      ensures Valid()
      ensures appended <==> old(series) == [] || !SameState(Last(old(series)), tick)
      ensures series == (if appended then old(series) + [tick] else old(series))
      ensures exchange.dirty == (appended || old(exchange.dirty))
    {
      appended := HasChanged(series, tick);
      if appended {
        ChangedKeepsLog(series, tick);
        series := series + [tick];
        exchange.Invalidate();
      }
    }

    /** One step of whichever kind this ticker is. */
    method Step(p: Poll)
      requires Valid() && Fits(kind, p)
      modifies this`series, exchange`dirty
      ensures Valid()
      ensures series == After(kind, old(series), p)
      ensures kind != OrderKind ==> exchange.dirty
      ensures kind == OrderKind ==> exchange.dirty == (|series| > |old(series)| || old(exchange.dirty))
    {
      match kind
      case QuoteKind => StepQuote(p.tick);
      case CandleKind => var _ := StepCandles(p.candles, p.time);
      case OrderKind => var _ := StepOrder(p.tick);
    }

    /** `kill`: stops the run loop at its next check. */
    method Kill()
      modifies this`running
      ensures !running
    {
      running := false;
    }

    /**
     * After the first `n` polls from `start`: the series is their replay; a
     * quote or candle ticker has marked the exchange dirty if it stepped at
     * all, and an order ticker has marked it exactly when its series grew
     * (or it was already dirty).
     */
    ghost predicate Replayed(start: seq<Tick>, wasDirty: bool, polls: seq<Poll>, n: nat)
      reads this, exchange
    {
      Valid() && n <= |polls| && AllFit(kind, polls[..n]) &&
      (kind == OrderKind ==> OrderLog(start)) &&
      series == Replay(kind, start, polls[..n]) &&
      (n > 0 && kind != OrderKind ==> exchange.dirty) &&
      (kind == OrderKind ==> exchange.dirty == (|series| > |start| || wasDirty))
    }

    /** One pass of the run loop: the step for poll `n`. */
    method Advance(ghost start: seq<Tick>, ghost wasDirty: bool, polls: seq<Poll>, n: nat)
      requires n < |polls| && AllFit(kind, polls) && Replayed(start, wasDirty, polls, n)
      modifies this`series, exchange`dirty
      ensures Replayed(start, wasDirty, polls, n + 1)
    {
      ReplayNext(kind, start, polls, n);
      Step(polls[n]);
    }

    /**
     * `run`: while the thread is running, step and then sleep. A `kill`
     * arrives during the sleep after step `killAfter` (before the first check
     * when `killAfter` is 0); the loop then starts no further step. The
     * answers to the polls are `polls`, in order.
     */
    method Run(polls: seq<Poll>, killAfter: nat) returns (steps: nat)
      requires Valid() && killAfter <= |polls| && AllFit(kind, polls)
      modifies this`series, this`running, exchange`dirty
      ensures Valid() && !running
      ensures steps == (if old(running) then killAfter else 0)
      ensures series == Replay(kind, old(series), polls[..steps])
      ensures steps > 0 && kind != OrderKind ==> exchange.dirty
      ensures kind == OrderKind ==> exchange.dirty == (series != old(series) || old(exchange.dirty))
    {
      ghost var start, wasRunning, wasDirty := series, running, exchange.dirty;
      steps := 0;
      assert AllFit(kind, polls[..0]);
      if killAfter == 0 {
        Kill();
      }
      while running
        invariant steps <= killAfter && Replayed(start, wasDirty, polls, steps)
        invariant running ==> wasRunning && steps < killAfter
        invariant !running ==> steps == (if wasRunning then killAfter else 0)
        decreases killAfter - steps
      {
        Advance(start, wasDirty, polls, steps);
        steps := steps + 1;
        // the thread sleeps `timeout` milliseconds; this is when `kill` may arrive
        if steps == killAfter {
          Kill();
        }
      }
      ExtensionGrows(start, series);
    }
  }
}
