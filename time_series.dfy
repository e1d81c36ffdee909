/**
 * The records a series holds. The series implementation itself (encoding,
 * nearest-record lookup, persistence) is not part of this model: a series is
 * the sequence of its records, plus the backing file it is read from.
 */
module TimeSeries {

  /** One timestamped record: a quote, a candle, or a snapshot of an order's state. */
  datatype Tick =
    | Quote(timestamp: int, bid: real, ask: real)
    | Candle(timestamp: int, open: real, high: real, low: real, close: real, volume: real)
    | Snapshot(timestamp: int, id: string, status: string, filled: real)

  /** A series as the replay API holds it: the file it is read from and the records read so far. */
  datatype Series = Series(source: string, records: seq<Tick>)

  function Last(s: seq<Tick>): Tick
    requires s != []
  {
    s[|s| - 1]
  }

  /** Timestamps strictly increase along the series: no two records share a timestamp. */
  ghost predicate Ascending(s: seq<Tick>) {
    forall i, j :: 0 <= i < j < |s| ==> s[i].timestamp < s[j].timestamp
  }
}
