/** The transformer (ETL.transform): turns one provider payload for a symbol
    into candle rows, or reports that the provider had no data. */
module Transform {
  import opened Records

  /** The status the provider uses for "nothing in this range". */
  const NoDataStatus: string := "no_data"

  /** The provider's daily-candle payload: a status and one column per field
      (open, close, high, low, volume, timestamp), point i spread over index i
      of every column. */
  datatype Payload = Payload(
    status: string,
    o: seq<Price>,
    c: seq<Price>,
    h: seq<Price>,
    l: seq<Price>,
    v: seq<Volume>,
    t: seq<Timestamp>)

  /** The six columns of a payload, without its status. */
  datatype Columns = Columns(
    o: seq<Price>,
    c: seq<Price>,
    h: seq<Price>,
    l: seq<Price>,
    v: seq<Volume>,
    t: seq<Timestamp>)

  /** Building a data frame from the payload needs every column to have the
      same length; otherwise the frame constructor raises. */
  predicate Aligned(p: Payload) {
    |p.o| == |p.t| && |p.c| == |p.t| && |p.h| == |p.t| && |p.l| == |p.t| && |p.v| == |p.t|
  }

  /** The widest timestamp, in seconds either side of the epoch, that pandas
      can turn into a datetime: its datetimes count signed 64-bit
      nanoseconds, so they span 1677-09-21 to 2262-04-11. */
  const MaxDatetimeSeconds: int := 9223372036

  predicate InDatetimeRange(ts: Timestamp) {
    -MaxDatetimeSeconds <= ts <= MaxDatetimeSeconds
  }

  /** Every timestamp of a column converts to a datetime. */
  predicate AllInDatetimeRange(ts: seq<Timestamp>) {
    forall i :: 0 <= i < |ts| ==> InDatetimeRange(ts[i])
  }

  datatype Transformed =
    | NoData
    | Rows(rows: seq<Candle>)
    | Misaligned   // building the frame raised
    | OutOfRange   // converting a timestamp to a date raised

  function ColumnsOf(p: Payload): Columns {
    Columns(p.o, p.c, p.h, p.l, p.v, p.t)
  }

  /** Projects rows back onto the provider's columns: the inverse direction
      of the field mapping o->open, c->close, h->high, l->low, v->volume, t->ts. */
  function Project(rows: seq<Candle>): (cols: Columns)
    ensures |cols.o| == |cols.c| == |cols.h| == |cols.l| == |cols.v| == |cols.t| == |rows|
  {
    Columns(
      seq(|rows|, i requires 0 <= i < |rows| => rows[i].open),
      seq(|rows|, i requires 0 <= i < |rows| => rows[i].close),
      seq(|rows|, i requires 0 <= i < |rows| => rows[i].high),
      seq(|rows|, i requires 0 <= i < |rows| => rows[i].low),
      seq(|rows|, i requires 0 <= i < |rows| => rows[i].volume),
      seq(|rows|, i requires 0 <= i < |rows| => rows[i].ts))
  }

  /** A row as the transformer produces it: it carries the symbol it was
      fetched for, and its date is the UTC day of its timestamp. */
  predicate Normalised(symbol: Symbol, row: Candle) {
    row.symbol == symbol && row.date == DayOf(row.ts)
  }

  /** The row built from point i of an aligned payload. */
  function RowAt(symbol: Symbol, p: Payload, i: nat): Candle
    requires Aligned(p) && i < |p.t|
  {
    Candle(symbol, DayOf(p.t[i]), p.o[i], p.c[i], p.h[i], p.l[i], p.v[i], p.t[i])
  }

  function Transform(symbol: Symbol, p: Payload): (r: Transformed)
    ensures r.NoData? <==> p.status == NoDataStatus
    ensures r.Misaligned? <==> p.status != NoDataStatus && !Aligned(p)
    ensures r.OutOfRange? <==> p.status != NoDataStatus && Aligned(p) && !AllInDatetimeRange(p.t)
    ensures r.Rows? ==> AllInDatetimeRange(p.t)
    ensures r.Rows? ==> Project(r.rows) == ColumnsOf(p)
    ensures r.Rows? ==> forall i :: 0 <= i < |r.rows| ==> Normalised(symbol, r.rows[i])
  {
    if p.status == NoDataStatus then NoData
    else if !Aligned(p) then Misaligned
    else if !AllInDatetimeRange(p.t) then OutOfRange
    else
      var rows := seq(|p.t|, i requires 0 <= i < |p.t| => RowAt(symbol, p, i));
      assert Project(rows) == ColumnsOf(p);
      Rows(rows)
  }

  /** The payload a provider would send for a batch of rows. */
  function PayloadOf(status: string, rows: seq<Candle>): (p: Payload)
    ensures Aligned(p) && |p.t| == |rows|
  {
    var cols := Project(rows);
    Payload(status, cols.o, cols.c, cols.h, cols.l, cols.v, cols.t)
  }

  /** Round trip, rows first: any batch of normalised rows is exactly what
      the transformer rebuilds from the payload carrying their columns. */
  lemma TransformPayloadOf(symbol: Symbol, status: string, rows: seq<Candle>)
    requires status != NoDataStatus
    requires forall i :: 0 <= i < |rows| ==> Normalised(symbol, rows[i])
    requires forall i :: 0 <= i < |rows| ==> InDatetimeRange(rows[i].ts)
    ensures Transform(symbol, PayloadOf(status, rows)) == Rows(rows)
  {
    var p := PayloadOf(status, rows);
    var r := Transform(symbol, p);
    assert |r.rows| == |rows|;
    forall i | 0 <= i < |rows|
      ensures r.rows[i] == rows[i]
    {
      assert r.rows[i] == RowAt(symbol, p, i);
    }
  }

  /** Round trip, payload first: the columns of the rows, put back into a
      payload with the same status, give back the payload. */
  lemma PayloadOfTransform(symbol: Symbol, p: Payload)
    requires Transform(symbol, p).Rows?
    ensures PayloadOf(p.status, Transform(symbol, p).rows) == p
  {
  }

  /** One row per provider point, and row i is built from point i. */
  lemma TransformRowAt(symbol: Symbol, p: Payload, i: nat)
    requires Transform(symbol, p).Rows? && i < |p.t|
    ensures |Transform(symbol, p).rows| == |p.t|
    ensures Transform(symbol, p).rows[i] == RowAt(symbol, p, i)
  {
    var rows := Transform(symbol, p).rows;
    assert |Project(rows).t| == |p.t|;
    assert rows[i].ts == Project(rows).t[i];
  }

  /** Every key of a transformed batch belongs to the symbol it was fetched for. */
  lemma TransformKeysCarrySymbol(symbol: Symbol, p: Payload)
    requires Transform(symbol, p).Rows?
    ensures forall k :: k in KeysOf(Transform(symbol, p).rows) ==> k.symbol == symbol
  {
    var rows := Transform(symbol, p).rows;
    forall k | k in KeysOf(rows)
      ensures k.symbol == symbol
    {
      var i := KeysOfWitness(rows, k);
      assert Normalised(symbol, rows[i]);
    }
  }
}
