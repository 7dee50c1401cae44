/** The record model of the candle-stick pipeline: one daily candle per
    (symbol, UTC day), the key it is stored under, and the day arithmetic
    that turns provider timestamps into calendar days. */
module Records {

  /** A value that may be absent: a table that does not exist yet, an
      argument the caller left out. */
  datatype Option<T> = None | Some(value: T) {
    function GetOr(default: T): (r: T)
      ensures Some? ==> r == value
      ensures None? ==> r == default
    {
      match this
      case Some(v) => v
      case None => default
    }
  }

  /** A provider ticker symbol. */
  type Symbol = string

  /** A calendar day, counted in days since 1970-01-01 (UTC). */
  type Day = int

  /** A point in time, counted in seconds since the Unix epoch (UTC). */
  type Timestamp = int

  /** Prices are carried through the pipeline untouched; nothing computes with them. */
  type Price = real

  type Volume = int

  const SecondsPerDay: int := 86400

  /** The UTC calendar day a timestamp falls in: the floor of ts / 86400.
      Dafny's Euclidean division agrees with the floor for a positive
      divisor, so this also holds before 1970. */
  function DayOf(ts: Timestamp): (d: Day)
    ensures d * SecondsPerDay <= ts < d * SecondsPerDay + SecondsPerDay
  {
    ts / SecondsPerDay
  }

  /** Midnight (UTC) at the start of a day. */
  function StartOfDay(d: Day): (ts: Timestamp)
    ensures DayOf(ts) == d
    ensures forall t :: DayOf(t) == d ==> ts <= t
  {
    d * SecondsPerDay
  }

  /** Later timestamps never fall on earlier days. */
  lemma DayOfMonotone(a: Timestamp, b: Timestamp)
    requires a <= b
    ensures DayOf(a) <= DayOf(b)
  {
  }

  /** The primary key of the candle table. */
  datatype Key = Key(symbol: Symbol, date: Day)

  /** One row of the candle table, with its columns in the table's order. */
  datatype Candle = Candle(
    symbol: Symbol,
    date: Day,
    open: Price,
    close: Price,
    high: Price,
    low: Price,
    volume: Volume,
    ts: Timestamp)

  function KeyOf(c: Candle): Key {
    Key(c.symbol, c.date)
  }

  /** The candle table, keyed by its primary key. */
  type CandleTable = map<Key, Candle>

  /** The watermark table: the last loaded day of each symbol. */
  type MarkTable = map<Symbol, Day>

  /** A candle table is consistent when every row is stored under its own key. */
  ghost predicate KeyedByRow(t: CandleTable) {
    forall k :: k in t ==> KeyOf(t[k]) == k
  }

  /** The keys a batch of rows carries. */
  function KeysOf(rows: seq<Candle>): (ks: set<Key>)
    ensures forall i :: 0 <= i < |rows| ==> KeyOf(rows[i]) in ks
  {
    if |rows| == 0 then {}
    else KeysOf(rows[..|rows| - 1]) + {KeyOf(rows[|rows| - 1])}
  }

  /** Every key of a batch comes from one of its rows. */
  lemma {:induction false} KeysOfWitness(rows: seq<Candle>, k: Key) returns (i: nat)
    requires k in KeysOf(rows)
    ensures i < |rows| && KeyOf(rows[i]) == k
  {
    var n := |rows| - 1;
    if k == KeyOf(rows[n]) {
      i := n;
    } else {
      i := KeysOfWitness(rows[..n], k);
      assert rows[..n][i] == rows[i];
    }
  }

  /** A batch whose rows carry pairwise different keys has one key per row. */
  lemma {:induction false} KeysOfDistinct(rows: seq<Candle>)
    requires forall i, j :: 0 <= i < j < |rows| ==> KeyOf(rows[i]) != KeyOf(rows[j])
    ensures |KeysOf(rows)| == |rows|
  {
    if |rows| > 0 {
      var n := |rows| - 1;
      var prefix := rows[..n];
      assert forall i :: 0 <= i < n ==> prefix[i] == rows[i];
      KeysOfDistinct(prefix);
      assert KeyOf(rows[n]) !in KeysOf(prefix) by {
        forall k | k in KeysOf(prefix)
          ensures k != KeyOf(rows[n])
        {
          var i := KeysOfWitness(prefix, k);
          assert prefix[i] == rows[i];
        }
      }
    }
  }
}
