/** The watermark tracker: where the next fetch of a symbol starts
    (ETL.get_default_start) and the conditional-max upsert that records how
    far a symbol has been loaded (ETL.update_end_date). */
module Watermark {
  import opened Records

  /** What reading the watermark table yields for one symbol. `NotFound` is
      get_default_start's -1 sentinel: a value of another type than a start date,
      so it cannot be confused with any day. */
  datatype StartLookup =
    | StartAt(day: Day)
    | NotFound
    | TableMissing

  /** The day after the symbol's watermark. When the watermark table does not
      exist, the query fails, retrieve swallows the error and returns None,
      and `.iat` on None raises an AttributeError that the IndexError handler
      does not catch: `TableMissing`. */
  function DefaultStart(marks: Option<MarkTable>, symbol: Symbol): (r: StartLookup)
    ensures r.TableMissing? <==> marks.None?
    ensures r.NotFound? <==> marks.Some? && symbol !in marks.value
    ensures r.StartAt? ==> symbol in marks.value && r.day - 1 == marks.value[symbol]
  {
    match marks
    case None => TableMissing
    case Some(m) => if symbol in m then StartAt(m[symbol] + 1) else NotFound
  }

  function Max(a: int, b: int): int {
    if a < b then b else a
  }

  /** Insert the symbol's day when the symbol is absent; otherwise overwrite
      the stored day only when the new day is strictly later. */
  function UpdateEndDate(marks: MarkTable, symbol: Symbol, day: Day): (r: MarkTable)
    ensures r.Keys == marks.Keys + {symbol}
    ensures symbol !in marks ==> r[symbol] == day
    ensures symbol in marks ==> r[symbol] == Max(marks[symbol], day)
    ensures forall s :: s in marks && s != symbol ==> r[s] == marks[s]
  {
    if symbol !in marks then marks[symbol := day]
    else if marks[symbol] < day then marks[symbol := day]
    else marks
  }

  /** The stored watermark of every symbol never moves backwards. */
  lemma UpdateEndDateMonotone(marks: MarkTable, symbol: Symbol, day: Day)
    ensures forall s :: s in marks ==> s in UpdateEndDate(marks, symbol, day)
    ensures forall s :: s in marks ==> marks[s] <= UpdateEndDate(marks, symbol, day)[s]
  {
  }

  /** Re-submitting the same day changes nothing. */
  lemma UpdateEndDateIdempotent(marks: MarkTable, symbol: Symbol, day: Day)
    ensures UpdateEndDate(UpdateEndDate(marks, symbol, day), symbol, day)
         == UpdateEndDate(marks, symbol, day)
  {
  }

  /** The order in which two days are submitted does not matter. */
  lemma UpdateEndDateCommutes(marks: MarkTable, symbol: Symbol, a: Day, b: Day)
    ensures UpdateEndDate(UpdateEndDate(marks, symbol, a), symbol, b)
         == UpdateEndDate(UpdateEndDate(marks, symbol, b), symbol, a)
  {
  }

  /** Submitting a sequence of days for one symbol, in order. */
  function UpdateAll(marks: MarkTable, symbol: Symbol, days: seq<Day>): (r: MarkTable)
    ensures r.Keys == if |days| == 0 then marks.Keys else marks.Keys + {symbol}
    ensures forall s :: s in marks && s != symbol ==> r[s] == marks[s]
  {
    if |days| == 0 then marks
    else UpdateEndDate(UpdateAll(marks, symbol, days[..|days| - 1]), symbol, days[|days| - 1])
  }

  /** The largest day of a non-empty sequence. */
  function Latest(days: seq<Day>): (m: Day)
    requires |days| > 0
    ensures forall i :: 0 <= i < |days| ==> days[i] <= m
    ensures exists i :: 0 <= i < |days| && days[i] == m
  {
    if |days| == 1 then days[0]
    else
      var m := Latest(days[..|days| - 1]);
      assert forall i :: 0 <= i < |days| - 1 ==> days[..|days| - 1][i] == days[i];
      Max(m, days[|days| - 1])
  }

  /** After a sequence of updates the stored day is the largest of the prior
      day (if any) and every submitted day. */
  lemma {:induction false} UpdateAllIsLatest(marks: MarkTable, symbol: Symbol, days: seq<Day>)
    requires |days| > 0
    ensures symbol in UpdateAll(marks, symbol, days)
    ensures symbol !in marks ==> UpdateAll(marks, symbol, days)[symbol] == Latest(days)
    ensures symbol in marks ==>
      UpdateAll(marks, symbol, days)[symbol] == Max(marks[symbol], Latest(days))
  {
    if |days| > 1 {
      UpdateAllIsLatest(marks, symbol, days[..|days| - 1]);
    }
  }
}
