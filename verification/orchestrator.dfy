/** The sync orchestrator (ETL.run): resolve the fetch window, fetch and
    transform, then load the batch and only afterwards advance the
    watermark to the date of the batch's last row. */
module Orchestrator {
  import opened Records
  import opened Transform
  import opened Watermark
  import Loader
  import opened Session

  /** What the provider call yields: a payload, or an exception that leaves
      the run. */
  datatype Fetch = Answered(payload: Payload) | ProviderError

  /** The provider, seen as a function of symbol and UTC-second window. */
  type Provider = (Symbol, Timestamp, Timestamp) -> Fetch

  datatype Window = Window(tsStart: Timestamp, tsEnd: Timestamp)

  /** Normal terminal states that end a run without touching anything. */
  datatype SkipReason = NoBaseline | InvalidWindow

  /** Exceptions that leave a run. */
  datatype Fault =
    | WatermarkTableMissing // the watermark query failed, retrieve returned None, and `.iat` on None raised
    | ProviderFailure       // the provider call raised
    | MisalignedPayload     // the payload's columns differ in length
    | TimestampOutOfRange   // a timestamp lies outside pandas' datetime range
    | EmptyBatch            // the last row of an empty batch was asked for

  datatype Resolution =
    | Resolved(window: Window)
    | Skip(reason: SkipReason)
    | Fail(fault: Fault)

  /** The end defaults to "now"; a start after the end skips the run. */
  function WindowFrom(tsStart: Timestamp, end: Option<Timestamp>, now: Timestamp): (r: Resolution)
    ensures r.Resolved? || r == Skip(InvalidWindow)
    ensures r.Resolved? <==> tsStart <= end.GetOr(now)
    ensures r.Resolved? ==> r.window == Window(tsStart, end.GetOr(now))
  {
    var tsEnd := end.GetOr(now);
    if tsStart > tsEnd then Skip(InvalidWindow) else Resolved(Window(tsStart, tsEnd))
  }

  /** An explicit start wins; otherwise the run starts at midnight UTC of the
      day after the symbol's watermark, and a symbol without a watermark is
      skipped. */
  function ResolveWindow(marks: Option<MarkTable>, symbol: Symbol, start: Option<Timestamp>,
                         end: Option<Timestamp>, now: Timestamp): (r: Resolution)
    ensures r.Fail? <==> start.None? && marks.None?
    ensures r.Fail? ==> r.fault == WatermarkTableMissing
    ensures r == Skip(NoBaseline) <==> start.None? && marks.Some? && symbol !in marks.value
    ensures start.Some? ==> (r == Skip(InvalidWindow) <==> start.value > end.GetOr(now))
    ensures start.None? && marks.Some? && symbol in marks.value ==>
      (r == Skip(InvalidWindow) <==> StartOfDay(marks.value[symbol] + 1) > end.GetOr(now))
    ensures r.Resolved? ==> r.window.tsStart <= r.window.tsEnd == end.GetOr(now)
    ensures r.Resolved? && start.Some? ==> r.window.tsStart == start.value
    ensures r.Resolved? && start.None? ==>
      marks.Some? && symbol in marks.value && DayOf(r.window.tsStart) - 1 == marks.value[symbol]
    ensures r.Resolved? && start.None? ==> r.window.tsStart == StartOfDay(marks.value[symbol] + 1)
  {
    match start
    case Some(ts) => WindowFrom(ts, end, now)
    case None =>
      match DefaultStart(marks, symbol)
      case TableMissing => Fail(WatermarkTableMissing)
      case NotFound => Skip(NoBaseline)
      case StartAt(day) => WindowFrom(StartOfDay(day), end, now)
  }

  /** The observable steps of a run, in order. */
  datatype Event =
    | Fetched(symbol: Symbol, tsStart: Timestamp, tsEnd: Timestamp)
    | LoadedBatch(inserted: nat)
    | Advanced(symbol: Symbol, day: Day)

  datatype Outcome =
    | Skipped(reason: SkipReason)
    | NoRows
    | Loaded(inserted: nat, omitted: int)
    | Raised(fault: Fault)

  datatype RunResult = RunResult(store: Store, outcome: Outcome, trace: seq<Event>)

  /** The rows of the candle table before a step, treating a missing table as empty. */
  function CandlesOf(s: Store): CandleTable {
    s.candles.GetOr(map[])
  }

  function MarksOf(s: Store): MarkTable {
    s.marks.GetOr(map[])
  }

  /** ETL.load: create the candle table unless listed, then the dedup load. */
  function LoadBatch(s: Store, rows: seq<Candle>): (r: (Store, Loader.LoadReport))
    ensures r.1 == Loader.Load(CandlesOf(s), rows)
    ensures r.0 == s.(candles := Some(r.1.table))
  {
    var created := CreateTable(s, CandleSticks);
    var report := Loader.Load(created.candles.value, rows);
    (created.(candles := Some(report.table)), report)
  }

  /** ETL.update_end_date: create the watermark table unless listed, then the
      conditional-max upsert. */
  function AdvanceWatermark(s: Store, symbol: Symbol, day: Day): (r: Store)
    ensures r == s.(marks := Some(UpdateEndDate(MarksOf(s), symbol, day)))
  {
    var created := CreateTable(s, LastUpdate);
    created.(marks := Some(UpdateEndDate(created.marks.value, symbol, day)))
  }

  /** Loading a transformed batch, then advancing the watermark to the date
      of the batch's last row. Asking an empty batch for its last row raises
      after the load has happened. */
  function Ingest(s: Store, symbol: Symbol, rows: seq<Candle>): (r: RunResult)
    ensures |rows| == 0 <==> r.outcome == Raised(EmptyBatch)
    ensures |rows| == 0 ==> r.trace == [LoadedBatch(0)] && r.store.marks == s.marks
    ensures |rows| > 0 ==> r.outcome.Loaded? && r.outcome.inserted + r.outcome.omitted == |rows|
    ensures |rows| > 0 ==>
      r.trace == [LoadedBatch(r.outcome.inserted), Advanced(symbol, rows[|rows| - 1].date)]
  {
    var (loaded, report) := LoadBatch(s, rows);
    if |rows| == 0 then RunResult(loaded, Raised(EmptyBatch), [LoadedBatch(report.inserted)])
    else
      var day := rows[|rows| - 1].date;
      RunResult(AdvanceWatermark(loaded, symbol, day),
                Loaded(report.inserted, report.omitted),
                [LoadedBatch(report.inserted), Advanced(symbol, day)])
  }

  /** Everything after a valid window: fetch, transform, and ingest rows. */
  function FetchAndIngest(s: Store, symbol: Symbol, w: Window, provider: Provider): (r: RunResult)
    ensures |r.trace| > 0 && r.trace[0] == Fetched(symbol, w.tsStart, w.tsEnd)
    ensures !r.outcome.Skipped?
    ensures r.outcome.Loaded? ==>
      |r.trace| == 3 && r.trace[1] == LoadedBatch(r.outcome.inserted) && r.trace[2].Advanced?
    ensures !r.outcome.Loaded? && r.outcome != Raised(EmptyBatch) ==>
      r.store == s && r.trace == [Fetched(symbol, w.tsStart, w.tsEnd)]
  {
    var fetched := [Fetched(symbol, w.tsStart, w.tsEnd)];
    match provider(symbol, w.tsStart, w.tsEnd)
    case ProviderError => RunResult(s, Raised(ProviderFailure), fetched)
    case Answered(payload) =>
      match Transform.Transform(symbol, payload)
      case NoData => RunResult(s, NoRows, fetched)
      case Misaligned => RunResult(s, Raised(MisalignedPayload), fetched)
      case OutOfRange => RunResult(s, Raised(TimestampOutOfRange), fetched)
      case Rows(rows) =>
        var ingested := Ingest(s, symbol, rows);
        ingested.(trace := fetched + ingested.trace)
  }

  /** One run for one symbol. */
  function Run(s: Store, symbol: Symbol, start: Option<Timestamp>, end: Option<Timestamp>,
               now: Timestamp, provider: Provider): (r: RunResult)
    ensures r.outcome.Skipped? ==> r.store == s && r.trace == []
    ensures r.outcome == Raised(WatermarkTableMissing) ==> r.store == s && r.trace == []
    ensures r.outcome.NoRows? ==> r.store == s && |r.trace| == 1 && r.trace[0].Fetched?
    ensures r.outcome.Loaded? ==>
      |r.trace| == 3 && r.trace[0].Fetched? && r.trace[1] == LoadedBatch(r.outcome.inserted)
      && r.trace[2].Advanced?
    ensures r.trace != [] ==> r.trace[0].Fetched? && r.trace[0].symbol == symbol
  {
    match ResolveWindow(s.marks, symbol, start, end, now)
    case Fail(fault) => RunResult(s, Raised(fault), [])
    case Skip(why) => RunResult(s, Skipped(why), [])
    case Resolved(w) => FetchAndIngest(s, symbol, w, provider)
  }

  /** No explicit start and no watermark row: the run ends before fetching,
      with nothing loaded and no watermark written. */
  lemma RunSkipsWithoutBaseline(s: Store, symbol: Symbol, end: Option<Timestamp>,
                                now: Timestamp, provider: Provider)
    requires s.marks.Some? && symbol !in s.marks.value
    ensures Run(s, symbol, None, end, now, provider) == RunResult(s, Skipped(NoBaseline), [])
  {
  }

  /** A start later than the end skips the run with no fetch, load or
      watermark change. */
  lemma RunSkipsInvalidWindow(s: Store, symbol: Symbol, start: Option<Timestamp>,
                              end: Option<Timestamp>, now: Timestamp, provider: Provider)
    requires start.Some? || (s.marks.Some? && symbol in s.marks.value)
    requires (if start.Some? then start.value else StartOfDay(s.marks.value[symbol] + 1)) > end.GetOr(now)
    ensures Run(s, symbol, start, end, now, provider) == RunResult(s, Skipped(InvalidWindow), [])
  {
  }

  /** Watermark 2023-06-01 (day 19509) and "now" at noon UTC the same day:
      the default start 2023-06-02 00:00 lies after the end, so the run skips. */
  lemma ExampleSameDayRunSkips(provider: Provider)
    ensures var s := Store(Some(map[]), Some(map["AAPL" := 19509]));
            Run(s, "AAPL", None, None, 1685620800, provider) == RunResult(s, Skipped(InvalidWindow), [])
  {
    assert StartOfDay(19510) == 1685664000;
  }

  /** What a run leaves in the store: the store itself, unless a batch was
      transformed, in which case the store that ingesting the batch leaves. */
  lemma RunStore(s: Store, symbol: Symbol, start: Option<Timestamp>,
                 end: Option<Timestamp>, now: Timestamp, provider: Provider)
    returns (batch: Option<seq<Candle>>)
    ensures batch.None? ==> Run(s, symbol, start, end, now, provider).store == s
    ensures batch.None? ==> !Run(s, symbol, start, end, now, provider).outcome.Loaded?
    ensures batch.Some? ==> Run(s, symbol, start, end, now, provider).store == Ingest(s, symbol, batch.value).store
    ensures batch.Some? ==> Run(s, symbol, start, end, now, provider).outcome == Ingest(s, symbol, batch.value).outcome
    ensures batch.Some? ==> forall k :: k in KeysOf(batch.value) ==> k.symbol == symbol
    ensures batch.Some? ==> forall i :: 0 <= i < |batch.value| ==> Normalised(symbol, batch.value[i])
  {
    batch := None;
    match ResolveWindow(s.marks, symbol, start, end, now)
    case Fail(_) =>
    case Skip(_) =>
    case Resolved(w) =>
      match provider(symbol, w.tsStart, w.tsEnd)
      case ProviderError =>
      case Answered(payload) =>
        var t := Transform.Transform(symbol, payload);
        if t.Rows? {
          TransformKeysCarrySymbol(symbol, payload);
          batch := Some(t.rows);
        }
  }

  /** Ingesting keeps every stored row and adds the batch's new keys. */
  lemma IngestKeepsRows(s: Store, symbol: Symbol, rows: seq<Candle>)
    ensures var after := CandlesOf(Ingest(s, symbol, rows).store);
            after.Keys == CandlesOf(s).Keys + KeysOf(rows)
            && forall k :: k in CandlesOf(s) ==> after[k] == CandlesOf(s)[k]
  {
    var (loaded, report) := LoadBatch(s, rows);
    assert CandlesOf(Ingest(s, symbol, rows).store) == report.table;
  }

  /** Rows stored before a run are still stored, unchanged, after it, and
      every row the run adds belongs to the run's symbol. */
  lemma RunKeepsStoredRows(s: Store, symbol: Symbol, start: Option<Timestamp>,
                           end: Option<Timestamp>, now: Timestamp, provider: Provider)
    ensures var after := CandlesOf(Run(s, symbol, start, end, now, provider).store);
            forall k :: k in CandlesOf(s) ==> k in after && after[k] == CandlesOf(s)[k]
    ensures var after := CandlesOf(Run(s, symbol, start, end, now, provider).store);
            forall k :: k in after && k !in CandlesOf(s) ==> k.symbol == symbol
  {
    var batch := RunStore(s, symbol, start, end, now, provider);
    if batch.Some? {
      IngestKeepsRows(s, symbol, batch.value);
    }
  }

  /** Ingesting moves only the symbol's watermark, and never backwards; an
      empty batch moves none. */
  lemma IngestWatermark(s: Store, symbol: Symbol, rows: seq<Candle>)
    ensures var after := Ingest(s, symbol, rows).store;
            forall x :: x in MarksOf(s) ==> x in MarksOf(after) && MarksOf(s)[x] <= MarksOf(after)[x]
    ensures var after := Ingest(s, symbol, rows).store;
            forall x :: x in MarksOf(after) && x != symbol ==> x in MarksOf(s) && MarksOf(after)[x] == MarksOf(s)[x]
    ensures |rows| > 0 ==>
      var after := MarksOf(Ingest(s, symbol, rows).store);
      var last := rows[|rows| - 1].date;
      symbol in after && after[symbol] == (if symbol in MarksOf(s) then Max(MarksOf(s)[symbol], last) else last)
  {
    IngestMarks(s, symbol, rows);
  }

  /** The watermark table after ingesting: the upsert of the last row's day,
      or untouched for an empty batch. */
  lemma IngestMarks(s: Store, symbol: Symbol, rows: seq<Candle>)
    ensures |rows| == 0 ==> MarksOf(Ingest(s, symbol, rows).store) == MarksOf(s)
    ensures |rows| > 0 ==>
      MarksOf(Ingest(s, symbol, rows).store) == UpdateEndDate(MarksOf(s), symbol, rows[|rows| - 1].date)
  {
    var (loaded, report) := LoadBatch(s, rows);
    assert loaded.marks == s.marks;
  }

  /** No watermark moves backwards; only the run's symbol can move, and only
      when the run loaded a batch. */
  lemma RunWatermarkMonotone(s: Store, symbol: Symbol, start: Option<Timestamp>,
                             end: Option<Timestamp>, now: Timestamp, provider: Provider)
    ensures var r := Run(s, symbol, start, end, now, provider);
            forall x :: x in MarksOf(s) ==> x in MarksOf(r.store) && MarksOf(s)[x] <= MarksOf(r.store)[x]
    ensures var r := Run(s, symbol, start, end, now, provider);
            forall x :: x in MarksOf(r.store) && x != symbol ==> x in MarksOf(s) && MarksOf(r.store)[x] == MarksOf(s)[x]
    ensures var r := Run(s, symbol, start, end, now, provider);
            r.store.marks != s.marks ==> r.outcome.Loaded?
  {
    var batch := RunStore(s, symbol, start, end, now, provider);
    if batch.Some? {
      IngestWatermark(s, symbol, batch.value);
    }
  }

  /** After a successful load the watermark is the later of its old value
      and the day of the batch's LAST row, whatever the other rows' days. */
  lemma RunAdvancesToLastRow(s: Store, symbol: Symbol, start: Option<Timestamp>,
                             end: Option<Timestamp>, now: Timestamp, provider: Provider,
                             w: Window, p: Payload)
    requires ResolveWindow(s.marks, symbol, start, end, now) == Resolved(w)
    requires provider(symbol, w.tsStart, w.tsEnd) == Answered(p)
    requires Run(s, symbol, start, end, now, provider).outcome.Loaded?
    ensures |p.t| > 0
    ensures var r := Run(s, symbol, start, end, now, provider);
            var last := DayOf(p.t[|p.t| - 1]);
            r.trace[2] == Advanced(symbol, last)
            && symbol in MarksOf(r.store)
            && MarksOf(r.store)[symbol] == (if symbol in MarksOf(s) then Max(MarksOf(s)[symbol], last) else last)
  {
    var rows := Transform.Transform(symbol, p).rows;
    var r := Run(s, symbol, start, end, now, provider);
    var ingested := Ingest(s, symbol, rows);
    assert r == ingested.(trace := [Fetched(symbol, w.tsStart, w.tsEnd)] + ingested.trace);
    IngestWatermark(s, symbol, rows);
    TransformRowAt(symbol, p, |p.t| - 1);
  }

  /** When the provider returns its points in time order, the watermark
      covers every row of the batch. */
  lemma RunCoversSortedBatch(s: Store, symbol: Symbol, start: Option<Timestamp>,
                             end: Option<Timestamp>, now: Timestamp, provider: Provider,
                             w: Window, p: Payload)
    requires ResolveWindow(s.marks, symbol, start, end, now) == Resolved(w)
    requires provider(symbol, w.tsStart, w.tsEnd) == Answered(p)
    requires Run(s, symbol, start, end, now, provider).outcome.Loaded?
    requires forall i, j :: 0 <= i < j < |p.t| ==> p.t[i] <= p.t[j]
    ensures var marks := MarksOf(Run(s, symbol, start, end, now, provider).store);
            symbol in marks && forall i :: 0 <= i < |p.t| ==> DayOf(p.t[i]) <= marks[symbol]
  {
    RunAdvancesToLastRow(s, symbol, start, end, now, provider, w, p);
    var marks := MarksOf(Run(s, symbol, start, end, now, provider).store);
    var last := DayOf(p.t[|p.t| - 1]);
    assert symbol in marks && last <= marks[symbol];
    SortedLastDayIsLatest(p.t);
  }

  lemma SortedLastDayIsLatest(ts: seq<Timestamp>)
    requires |ts| > 0
    requires forall i, j :: 0 <= i < j < |ts| ==> ts[i] <= ts[j]
    ensures forall i :: 0 <= i < |ts| ==> DayOf(ts[i]) <= DayOf(ts[|ts| - 1])
  {
    forall i | 0 <= i < |ts|
      ensures DayOf(ts[i]) <= DayOf(ts[|ts| - 1])
    {
      DayOfMonotone(ts[i], ts[|ts| - 1]);
    }
  }

  /** Out of time order, the watermark can stop short of the batch's latest
      day: points on day 2 then day 1 leave a fresh symbol's watermark at day 1. */
  lemma ExampleUnsortedBatchUnderAdvances()
    ensures var p := Payload("ok", [1.0, 1.0], [1.0, 1.0], [1.0, 1.0], [1.0, 1.0], [10, 10],
                             [2 * SecondsPerDay, SecondsPerDay]);
            var provider: Provider := (sym, a, b) => Answered(p);
            var r := Run(Store(None, None), "AAPL", Some(0), Some(3 * SecondsPerDay), 0, provider);
            r.outcome.Loaded? && MarksOf(r.store)["AAPL"] == 1 && DayOf(p.t[0]) == 2
  {
    var p := Payload("ok", [1.0, 1.0], [1.0, 1.0], [1.0, 1.0], [1.0, 1.0], [10, 10],
                     [2 * SecondsPerDay, SecondsPerDay]);
    var rows := Transform.Transform("AAPL", p).rows;
    TransformRowAt("AAPL", p, 1);
    assert rows[1].date == 1;
  }

  /** A first run into an empty database, with an explicit window and a
      provider answering one point per day, in any order: every point becomes
      a row, none is omitted, and the watermark table holds only the day of
      the symbol's last point. */
  lemma RunIntoFreshStore(symbol: Symbol, start: Timestamp, end: Option<Timestamp>,
                          now: Timestamp, provider: Provider, p: Payload)
    requires start <= end.GetOr(now)
    requires provider(symbol, start, end.GetOr(now)) == Answered(p)
    requires p.status != NoDataStatus && Aligned(p) && AllInDatetimeRange(p.t) && |p.t| > 0
    requires forall i, j :: 0 <= i < j < |p.t| ==> DayOf(p.t[i]) != DayOf(p.t[j])
    ensures var r := Run(Store(None, None), symbol, Some(start), end, now, provider);
            r.outcome == Loaded(|p.t|, 0)
            && |CandlesOf(r.store)| == |p.t|
            && MarksOf(r.store) == map[symbol := DayOf(p.t[|p.t| - 1])]
  {
    var rows := Transform.Transform(symbol, p).rows;
    forall i | 0 <= i < |p.t|
      ensures rows[i] == RowAt(symbol, p, i)
    {
      TransformRowAt(symbol, p, i);
    }
    TransformRowAt(symbol, p, 0);
    KeysOfDistinct(rows);
    Loader.LoadIntoEmpty(rows);
    IngestMarks(Store(None, None), symbol, rows);
  }

  /** The same first run, row by row: point i is stored under its (symbol,
      UTC day) key, as the row the transformer built from it. */
  lemma RunIntoFreshStoreRows(symbol: Symbol, start: Timestamp, end: Option<Timestamp>,
                              now: Timestamp, provider: Provider, p: Payload)
    requires start <= end.GetOr(now)
    requires provider(symbol, start, end.GetOr(now)) == Answered(p)
    requires p.status != NoDataStatus && Aligned(p) && AllInDatetimeRange(p.t) && |p.t| > 0
    requires forall i, j :: 0 <= i < j < |p.t| ==> DayOf(p.t[i]) != DayOf(p.t[j])
    ensures var t := CandlesOf(Run(Store(None, None), symbol, Some(start), end, now, provider).store);
            forall i :: 0 <= i < |p.t| ==>
              Key(symbol, DayOf(p.t[i])) in t && t[Key(symbol, DayOf(p.t[i]))] == RowAt(symbol, p, i)
  {
    var rows := Transform.Transform(symbol, p).rows;
    var t := CandlesOf(Run(Store(None, None), symbol, Some(start), end, now, provider).store);
    assert t == Loader.Load(map[], rows).table;
    Loader.LoadMatchesSpec(map[], rows);
    forall i | 0 <= i < |p.t|
      ensures Key(symbol, DayOf(p.t[i])) in t && t[Key(symbol, DayOf(p.t[i]))] == RowAt(symbol, p, i)
    {
      TransformRowAt(symbol, p, i);
      var j := Loader.FirstIndex(rows, KeyOf(rows[i]));
      TransformRowAt(symbol, p, j);
    }
  }

  /** A point dated 2286-11-20 lies beyond pandas' datetimes: the run raises
      while transforming, before anything is loaded or advanced. */
  lemma ExampleFarFutureTimestampRaises()
    ensures var p := Payload("ok", [1.0], [1.0], [1.0], [1.0], [10], [10000000000]);
            var provider: Provider := (sym, a, b) => Answered(p);
            var s := Store(None, None);
            var r := Run(s, "AAPL", Some(0), None, 10000000000, provider);
            r.outcome == Raised(TimestampOutOfRange) && r.store == s
  {
    var p := Payload("ok", [1.0], [1.0], [1.0], [1.0], [10], [10000000000]);
    assert !InDatetimeRange(p.t[0]);
  }

  /** Ingesting the same batch twice: the second pass inserts nothing, omits
      every row and changes nothing. */
  lemma IngestIdempotent(s: Store, symbol: Symbol, rows: seq<Candle>)
    requires |rows| > 0
    ensures var first := Ingest(s, symbol, rows);
            var again := Ingest(first.store, symbol, rows);
            again.store == first.store && again.outcome == Loaded(0, |rows|)
  {
    var before := CreateTable(s, CandleSticks).candles.value;
    Loader.LoadIdempotent(before, rows);
    UpdateEndDateIdempotent(MarksOf(s), symbol, rows[|rows| - 1].date);
  }

  /** A run with an explicit start does not read the watermark: its window
      depends on the arguments alone. */
  lemma ExplicitStartIgnoresWatermark(a: Option<MarkTable>, b: Option<MarkTable>, symbol: Symbol,
                                      start: Timestamp, end: Option<Timestamp>, now: Timestamp)
    ensures ResolveWindow(a, symbol, Some(start), end, now) == ResolveWindow(b, symbol, Some(start), end, now)
  {
  }

  /** Re-running with the same explicit start (and the same answer from the
      provider) inserts nothing and leaves the store as the first run did. */
  lemma RunIdempotent(s: Store, symbol: Symbol, start: Timestamp,
                      end: Option<Timestamp>, now: Timestamp, provider: Provider)
    requires Run(s, symbol, Some(start), end, now, provider).outcome.Loaded?
    ensures var first := Run(s, symbol, Some(start), end, now, provider);
            var again := Run(first.store, symbol, Some(start), end, now, provider);
            again.store == first.store
            && again.outcome == Loaded(0, first.outcome.inserted + first.outcome.omitted)
  {
    var first := Run(s, symbol, Some(start), end, now, provider);
    var w := ResolveWindow(s.marks, symbol, Some(start), end, now).window;
    ExplicitStartIgnoresWatermark(s.marks, first.store.marks, symbol, start, end, now);
    var rows := Transform.Transform(symbol, provider(symbol, w.tsStart, w.tsEnd).payload).rows;
    assert first.store == Ingest(s, symbol, rows).store;
    IngestIdempotent(s, symbol, rows);
  }

  /** A run inside the session's block: a run that raised leaves the
      committed database as it was, since the exit either rolls back or, with
      auto-commit off, closes without committing; a run that finished in a
      connected session with auto-commit on makes its store durable. */
  lemma RunSessionExit(sess: Session, symbol: Symbol, start: Option<Timestamp>,
                       end: Option<Timestamp>, now: Timestamp, provider: Provider)
    ensures var r := Run(sess.pending, symbol, start, end, now, provider);
            var durable := Close(sess.(pending := r.store), r.outcome.Raised?);
            (r.outcome.Raised? ==> durable == sess.durable)
            && (!r.outcome.Raised? && sess.connected && sess.commit ==> durable == r.store)
  {
  }
}
