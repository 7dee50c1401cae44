# Incremental candle-stick ETL, modelled in Dafny

This project models the load pipeline of the algo_trading repository.
For one ticker symbol, a run does the following:

- It resolves a fetch window from the symbol's watermark. The watermark is the last day already loaded, kept in the `last_update` table.
- It fetches daily candles from the market-data provider.
- It turns the provider's column-wise payload into rows keyed by (symbol, UTC day).
- It loads the rows into `candle_sticks` without duplicating a key. The batch is staged and then merged with `insert ... on conflict do nothing`.
- After the load, it advances the watermark with a conditional-max upsert.

It also models the database session around a run: create-if-absent tables, the auto-commit flag, and the commit or rollback taken when the `with` block exits.

Modules, one per concern of the source:

- `Records` (records.dfy): the candle row, its primary key, and the UTC day arithmetic.
- `Transform` (transform.dfy): `ETL.transform`.
- `Watermark` (watermark.dfy): `ETL.get_default_start` and `ETL.update_end_date`.
- `Loader` (loader.dfy): `RDS.load`, the staged dedup merge.
- `Session` (session.dfy): `RDS.create_table`, `RDS.list_tables`, `RDS.__enter__`/`__exit__` and `RDS.set_commit`.
- `Orchestrator` (orchestrator.dfy): `ETL.run`, `ETL.load` and `ETL.extract`.

The database is a value (`Session.Store`), and a table that was never created is `None`.
The provider is a function parameter from (symbol, start second, end second) to a payload or a failure.
"Now" is a parameter as well.
The model computes a run as a pure function: it returns the new store, an outcome, and the trace of observable steps (fetch, load, watermark advance).

The model follows the code as written:

- The watermark after a load is the day of the batch's **last** row, not the latest day in the batch.
  - `Orchestrator.RunAdvancesToLastRow` proves this.
  - `Orchestrator.RunCoversSortedBatch` shows the two agree when the provider answers in time order.
  - `Orchestrator.ExampleUnsortedBatchUnderAdvances` shows that they can differ otherwise.
- A missing watermark table is not a skip. `RDS.retrieve` swallows the query error and returns None. `.iat` on None raises `AttributeError`, which the `except IndexError` does not catch. So the run ends in `Raised(WatermarkTableMissing)`.
- A missing watermark row for the symbol skips the run (`Skipped(NoBaseline)`).
- A payload whose status is not `no_data` but which has no points is still loaded, as zero rows. Asking for the last row then raises (`Raised(EmptyBatch)`), after the load. The enclosing session rolls back.

## Model

| member | source | states |
|---|---|---|
| Records.DayOf | utils/etl_tool.py:82-84 | a row's date is the UTC day containing its timestamp: that day's midnight is at or before it, and the next midnight is after it |
| Records.StartOfDay | utils/etl_tool.py:156 | a start date taken as UTC midnight lies on that day, and no time of that day is earlier |
| Transform.Transform | utils/etl_tool.py:68-89 | status `no_data` gives no rows, exactly; columns of unequal length fail, exactly; aligned columns with a timestamp outside pandas' datetime range (±9223372036 s) fail, exactly; otherwise the rows project back onto the payload's columns under the o/c/h/l/v/t mapping, and every row carries the symbol and the UTC day of its timestamp |
| Transform.TransformPayloadOf | utils/etl_tool.py:19-26 | round trip from rows: any batch of normalised rows is rebuilt exactly from the payload that carries its columns |
| Transform.PayloadOfTransform | utils/etl_tool.py:78-81 | round trip from the payload: the columns of the transformed rows give back the payload |
| Transform.TransformRowAt | utils/etl_tool.py:78-84 | one row per provider point, and row i is built from point i |
| Transform.TransformKeysCarrySymbol | utils/etl_tool.py:82 | every key of a transformed batch belongs to the symbol it was fetched for |
| Watermark.DefaultStart | utils/etl_tool.py:100-117 | a missing watermark table, a missing symbol and a stored day are three distinct outcomes, each exactly when its condition holds; the start is the day after the stored day |
| Watermark.UpdateEndDate | utils/etl_tool.py:125-140 | the upsert adds the symbol, stores the larger of the old and new day (the new day when absent), and leaves every other symbol alone |
| Watermark.UpdateEndDateMonotone | utils/etl_tool.py:133-138 | no stored watermark ever decreases |
| Watermark.UpdateEndDateIdempotent | utils/etl_tool.py:133-138 | submitting the same day twice is submitting it once |
| Watermark.UpdateEndDateCommutes | utils/etl_tool.py:133-138 | the order in which two days are submitted does not matter |
| Watermark.UpdateAll | utils/etl_tool.py:125-140 | a sequence of upserts for one symbol adds only that symbol and leaves the others' days unchanged |
| Watermark.UpdateAllIsLatest | utils/etl_tool.py:133-138 | after a sequence of upserts the stored day is the maximum of the submitted days and the prior day |
| Loader.InsertOrSkipEffect | utils/database.py:138-143 | one insert leaves the row's key present and every existing row unchanged; the row lands only when its key was free; the count is the table's growth |
| Loader.Merge | utils/database.py:138-143 | the driver's row count never exceeds the number of staged rows |
| Loader.MergeKeys | utils/database.py:138-143 | the merged table holds exactly the target's keys and the batch's keys |
| Loader.MergeKeepsExisting | utils/database.py:138-143 | a row already in the target is never overwritten |
| Loader.MergeKeepsAll | utils/database.py:138-143 | all rows already in the target survive the merge unchanged |
| Loader.MergeGrowth | utils/database.py:138-147 | the reported row count is the growth of the target table |
| Loader.MergeFirstWins | utils/database.py:138-143 | a new key gets the first staged row that carries it |
| Loader.MergeMatchesSpec | utils/database.py:126-143 | the row-by-row merge equals the declarative merge: old rows stay, and each new key takes its first staged row |
| Loader.MergeAbsorbed | utils/database.py:138-143 | a batch whose keys are all present changes nothing and counts 0 |
| Loader.MergeConcat | utils/database.py:138-143 | merging two batches in turn is merging their concatenation, with the counts adding up |
| Loader.Load | utils/database.py:114-147 | the target gains exactly the batch's keys and keeps every existing row; omitted = batch size − inserted, never negative; the duplicate warning is logged exactly when something was omitted |
| Loader.LoadMatchesSpec | utils/database.py:114-143 | a load leaves exactly the declarative merge: existing rows stay, and each new key holds the first batch row that carries it |
| Loader.LoadInsertedIsGrowth | utils/database.py:145-147 | the inserted count is the table's growth, which is the number of the batch's keys the target lacked |
| Loader.LoadKeepsKeyedByRow | utils/database.py:138-143 | a table whose rows sit under their own (symbol, date) keys keeps that property after a load |
| Loader.LoadIdempotent | utils/database.py:114-147 | loading the same batch again changes nothing, inserts 0 and omits every row |
| Loader.LoadSequential | utils/database.py:114-147 | loading overlapping batches one after the other equals loading their union once, with the same total inserted |
| Loader.LoadIntoEmpty | utils/database.py:114-147 | into an empty table a batch lands as one row per distinct key, all counted as inserted |
| Session.Listed | utils/database.py:70-80 | a table is listed exactly when it exists |
| Session.CreateTable | utils/database.py:82-100 | afterwards the name is listed; an existing table is left as it is; a new table is empty; the other table is untouched |
| Session.CreateTableIdempotent | utils/database.py:86-88 | creating a table twice is creating it once |
| Session.ExitDecision | utils/database.py:46-68 | no connection: nothing; commit exactly when connected, no exception and auto-commit on; with auto-commit off neither commit nor rollback; rollback exactly when an exception meets auto-commit on |
| Session.Open | utils/database.py:20-44 | a session starts with auto-commit on and nothing pending |
| Session.SetCommit | utils/database.py:184-189 | only the auto-commit flag changes |
| Session.Close | utils/database.py:46-68 | the pending work becomes durable only on a commit; every other exit leaves the committed database as it was |
| Session.RaisedBlockChangesNothing | utils/database.py:54-63 | a block that raised never changes the committed database |
| Session.NoCommitChangesNothing | utils/database.py:58-59 | with auto-commit off the committed database never changes |
| Session.CleanExitCommits | utils/database.py:54-56 | a connected block that finishes normally with the default flag commits its work |
| Orchestrator.WindowFrom | utils/etl_tool.py:154-164 | the end defaults to now; the window is valid exactly when the start is not after the end |
| Orchestrator.ResolveWindow | utils/etl_tool.py:150-164 | an explicit start wins; otherwise a missing watermark table fails, a missing symbol skips, and the start is midnight UTC of the day after the watermark; the run skips exactly when that start is after the end |
| Orchestrator.LoadBatch | utils/etl_tool.py:91-98 | the batch is dedup-loaded into the candle table, treated as empty when it did not exist, and only that table changes |
| Orchestrator.AdvanceWatermark | utils/etl_tool.py:125-140 | the watermark table, created empty if absent, receives the conditional-max upsert of the day, and only that table changes |
| Orchestrator.Ingest | utils/etl_tool.py:170-176 | an empty batch raises after the load and leaves the watermarks alone; a non-empty one is loaded (inserted + omitted = batch size) and then the watermark advances to its last row's day, in that order |
| Orchestrator.FetchAndIngest | utils/etl_tool.py:166-176 | every valid window fetches first; no data, a provider failure, a misaligned payload or an out-of-range timestamp leaves the store untouched after the fetch |
| Orchestrator.Run | utils/etl_tool.py:142-180 | a skip or a missing watermark table touches nothing and fetches nothing; no data leaves the store as it was; a load is followed by a watermark advance |
| Orchestrator.RunSkipsWithoutBaseline | utils/etl_tool.py:151-153 | without a start and without a watermark row the run ends before fetching, with no effect |
| Orchestrator.RunSkipsInvalidWindow | utils/etl_tool.py:159-164 | a start after the end ends the run with no fetch, no load and no watermark change |
| Orchestrator.ExampleSameDayRunSkips | utils/etl_tool.py:150-164 | a symbol loaded up to today and re-run the same day skips, because tomorrow's midnight is after now |
| Orchestrator.RunStore | utils/etl_tool.py:166-176 | a run changes the store only by ingesting a batch of normalised rows (the symbol's, each dated by its timestamp's UTC day), whose keys all belong to the symbol |
| Orchestrator.IngestKeepsRows | utils/etl_tool.py:91-98 | ingesting keeps every stored row and adds exactly the batch's keys |
| Orchestrator.RunKeepsStoredRows | utils/etl_tool.py:142-176 | rows stored before a run are still there, unchanged, and every added row belongs to the run's symbol |
| Orchestrator.IngestMarks | utils/etl_tool.py:172-176 | the watermark table after ingesting is the upsert of the last row's day, or unchanged for an empty batch |
| Orchestrator.IngestWatermark | utils/etl_tool.py:170-176 | ingesting never moves a watermark backwards and moves only the symbol's, to the later of its old day and the last row's day |
| Orchestrator.RunWatermarkMonotone | utils/etl_tool.py:142-176 | over a whole run, watermarks never decrease, only the run's symbol can move, and only when a batch was loaded |
| Orchestrator.RunAdvancesToLastRow | utils/etl_tool.py:172-176 | after a load the watermark is the later of its old value and the day of the provider's last point |
| Orchestrator.RunCoversSortedBatch | utils/etl_tool.py:172-176 | when the provider answers in time order, the watermark covers every loaded day |
| Orchestrator.ExampleUnsortedBatchUnderAdvances | utils/etl_tool.py:174 | points answered as day 2 then day 1 leave a new symbol's watermark at day 1 |
| Orchestrator.RunIntoFreshStore | utils/etl_tool.py:142-176 | a first run into an empty database with one point per day, in any order, stores as many rows as points, reports every point inserted and none omitted, and leaves only the day of the last point as watermark |
| Orchestrator.RunIntoFreshStoreRows | utils/etl_tool.py:142-176 | in that first run, each point's row is stored under its (symbol, UTC day) key, exactly as the transformer built it |
| Orchestrator.ExampleFarFutureTimestampRaises | utils/etl_tool.py:84 | a point dated 2286-11-20 makes the run raise while transforming, with nothing loaded or advanced |
| Orchestrator.IngestIdempotent | utils/etl_tool.py:170-176 | ingesting the same batch again inserts nothing, omits every row and changes nothing |
| Orchestrator.ExplicitStartIgnoresWatermark | utils/etl_tool.py:151 | with an explicit start the window does not depend on the watermark table |
| Orchestrator.RunIdempotent | utils/etl_tool.py:142-176 | re-running a loaded run with the same explicit start inserts nothing and leaves the store as the first run did |
| Orchestrator.RunSessionExit | utils/database.py:46-68 | a run that raised inside the session's block leaves the committed database unchanged; one that finished in a connected session with auto-commit on makes its store durable |

## Left out

- SQL text, psycopg2 cursors, the CSV buffer and `copy_from`, and pandas frames: the model works on the rows and tables these carry.
- The staging table's time-derived name: it is only a fresh temporary name.
- Rows are staged verbatim, so merging the staging table is merging the batch. The staging table's columns and the target's shape are not modelled.
- Loader.Merge: the model assumes that rows leave the staging table in the order they were copied in, so that the first of two rows with the same key wins. The storage engine does not promise this scan order.
- Storage errors during the load: they propagate out of the run, and the session's rollback (`Session.Close`) discards the open transaction.
- A `ProgrammingError` from the watermark upsert: `RDS.modify` catches and swallows it, so the run reports success and the exit takes the commit branch on an aborted transaction, which the server rolls back. The model's upsert never fails.
- `ETL.get_default_end` reads the wall clock, and `datetime.now()` becomes the `now` parameter. Treating naive local datetimes as UTC is modelled by taking explicit starts, ends and now as UTC seconds.
- The finnhub client becomes the `Provider` function parameter. `ETL.extract` is the call of that function.
- Prices are `real` and pass through unchanged. The `float(4)` column precision, the `varchar(10)` symbol limit and the column misspelled `volumne` are not modelled. The copy is positional, so the misspelling has no effect.
- Table-name parameters are fixed to their defaults, `candle_sticks` and `last_update`. The upsert text names `last_update` whatever the parameter says.
- `RDS.retrieve`, `RDS.modify` and `RDS.drop_table` are modelled only through their effects on a run. Their error swallowing appears only as the missing-table case of `Watermark.DefaultStart`.
- Logging, `log_tool.py`, credentials, and the batch and weekly driver scripts.
