/** The dedup loader (RDS.load): a batch is staged verbatim into an empty
    table of the target's shape, then merged with "insert ... on conflict do
    nothing" keyed on (symbol, date). */
module Loader {
  import opened Records

  /** The target after a merge, and the driver's row count: how many staged
      rows were actually inserted. */
  datatype MergeResult = MergeResult(table: CandleTable, rowcount: nat)

  /** Inserting one row under "on conflict do nothing". */
  function InsertOrSkip(t: CandleTable, row: Candle): MergeResult {
    if KeyOf(row) in t then MergeResult(t, 0)
    else MergeResult(t[KeyOf(row) := row], 1)
  }

  /** One insert: the row's key is present afterwards, every row already
      there is kept, the row itself lands only when its key was free, and the
      count is the table's growth. */
  lemma InsertOrSkipEffect(t: CandleTable, row: Candle)
    ensures InsertOrSkip(t, row).table.Keys == t.Keys + {KeyOf(row)}
    ensures forall k :: k in t ==> InsertOrSkip(t, row).table[k] == t[k]
    ensures KeyOf(row) !in t ==> InsertOrSkip(t, row).table[KeyOf(row)] == row
    ensures InsertOrSkip(t, row).rowcount == |InsertOrSkip(t, row).table| - |t|
  {
    if KeyOf(row) !in t {
      var u := t[KeyOf(row) := row];
      assert u.Keys == t.Keys + {KeyOf(row)};
      assert |u.Keys| == |t.Keys| + 1;
    }
  }

  /** Staged rows are inserted in order; a row whose key is already present,
      in the target or from an earlier staged row, is skipped. */
  function Merge(target: CandleTable, staged: seq<Candle>): (r: MergeResult)
    ensures r.rowcount <= |staged|
  {
    if |staged| == 0 then MergeResult(target, 0)
    else
      var prefix := Merge(target, staged[..|staged| - 1]);
      var last := InsertOrSkip(prefix.table, staged[|staged| - 1]);
      MergeResult(last.table, prefix.rowcount + last.rowcount)
  }

  /** One step of the merge: the last staged row is inserted or skipped
      against the table the earlier rows left. */
  lemma MergeUnfold(target: CandleTable, staged: seq<Candle>)
    requires |staged| > 0
    ensures var prefix := Merge(target, staged[..|staged| - 1]);
            var last := InsertOrSkip(prefix.table, staged[|staged| - 1]);
            Merge(target, staged) == MergeResult(last.table, prefix.rowcount + last.rowcount)
  {
  }

  /** The merged table holds the target's keys and the batch's keys, nothing else. */
  lemma {:induction false} MergeKeys(target: CandleTable, staged: seq<Candle>)
    ensures Merge(target, staged).table.Keys == target.Keys + KeysOf(staged)
  {
    if |staged| > 0 {
      var n := |staged| - 1;
      MergeUnfold(target, staged);
      MergeKeys(target, staged[..n]);
      assert KeysOf(staged) == KeysOf(staged[..n]) + {KeyOf(staged[n])};
    }
  }

  /** Rows already in the target are left untouched. */
  lemma {:induction false} MergeKeepsExisting(target: CandleTable, staged: seq<Candle>, k: Key)
    requires k in target
    ensures k in Merge(target, staged).table && Merge(target, staged).table[k] == target[k]
  {
    if |staged| > 0 {
      MergeUnfold(target, staged);
      MergeKeepsExisting(target, staged[..|staged| - 1], k);
    }
  }

  /** The row count of a merge is the growth of the table. */
  lemma {:induction false} MergeGrowth(target: CandleTable, staged: seq<Candle>)
    ensures |Merge(target, staged).table| == |target| + Merge(target, staged).rowcount
  {
    if |staged| > 0 {
      var n := |staged| - 1;
      MergeUnfold(target, staged);
      MergeGrowth(target, staged[..n]);
      var t := Merge(target, staged[..n]).table;
      assert InsertOrSkip(t, staged[n]).rowcount == |InsertOrSkip(t, staged[n]).table| - |t| by {
        InsertOrSkipEffect(t, staged[n]);
      }
    }
  }

  /** What one call of the loader leaves behind and reports: rows inserted,
      duplicates omitted, and whether the "duplicated entries were omitted"
      warning is logged. */
  datatype LoadReport = LoadReport(table: CandleTable, inserted: nat, omitted: int, warned: bool)

  function Load(target: CandleTable, df: seq<Candle>): (r: LoadReport)
    ensures r.table.Keys == target.Keys + KeysOf(df)
    ensures forall k :: k in target ==> r.table[k] == target[k]
    ensures 0 <= r.omitted == |df| - r.inserted
    ensures r.warned <==> r.omitted > 0
  {
    var merged := Merge(target, df);
    MergeKeys(target, df);
    MergeKeepsAll(target, df);
    LoadReport(merged.table, merged.rowcount, |df| - merged.rowcount, |df| > merged.rowcount)
  }

  /** The reported insert count is the growth of the table, which is the
      number of the batch's keys the target did not have. */
  lemma LoadInsertedIsGrowth(target: CandleTable, df: seq<Candle>)
    ensures var r := Load(target, df);
            r.inserted == |r.table| - |target| == |KeysOf(df) - target.Keys|
  {
    MergeGrowth(target, df);
    NewKeysCount(target, Load(target, df).table, df);
  }

  lemma MergeKeepsAll(target: CandleTable, staged: seq<Candle>)
    ensures forall k :: k in target ==> k in Merge(target, staged).table && Merge(target, staged).table[k] == target[k]
  {
    forall k | k in target
      ensures k in Merge(target, staged).table && Merge(target, staged).table[k] == target[k]
    {
      MergeKeepsExisting(target, staged, k);
    }
  }

  /** The growth of a table that gained a batch's keys is the number of new keys. */
  lemma NewKeysCount(target: CandleTable, t: CandleTable, df: seq<Candle>)
    requires t.Keys == target.Keys + KeysOf(df)
    ensures |t| - |target| == |KeysOf(df) - target.Keys|
  {
    var added := KeysOf(df) - target.Keys;
    assert t.Keys == added + target.Keys;
    assert added !! target.Keys;
  }

  /** The index of the first row of a batch that carries a given key. */
  function FirstIndex(rows: seq<Candle>, k: Key): (i: nat)
    requires k in KeysOf(rows)
    ensures i < |rows| && KeyOf(rows[i]) == k
    ensures forall j :: 0 <= j < i ==> KeyOf(rows[j]) != k
  {
    var n := |rows| - 1;
    if k in KeysOf(rows[..n]) then
      var i := FirstIndex(rows[..n], k);
      assert forall j :: 0 <= j <= i ==> rows[..n][j] == rows[j];
      i
    else
      assert forall j :: 0 <= j < n ==> KeyOf(rows[..n][j]) in KeysOf(rows[..n]);
      assert forall j :: 0 <= j < n ==> rows[..n][j] == rows[j];
      n
  }

  lemma FirstIndexOfPrefix(rows: seq<Candle>, n: nat, k: Key)
    requires n <= |rows| && k in KeysOf(rows[..n])
    ensures k in KeysOf(rows)
    ensures FirstIndex(rows, k) == FirstIndex(rows[..n], k)
  {
    var i := FirstIndex(rows[..n], k);
    assert rows[..n][i] == rows[i];
    var j := FirstIndex(rows, k);
    assert forall m :: 0 <= m < i ==> rows[..n][m] == rows[m];
  }

  /** A key the target lacks gets the first staged row that carries it. */
  lemma {:induction false} MergeFirstWins(target: CandleTable, staged: seq<Candle>, k: Key)
    requires k !in target && k in KeysOf(staged)
    ensures k in Merge(target, staged).table
    ensures Merge(target, staged).table[k] == staged[FirstIndex(staged, k)]
  {
    var n := |staged| - 1;
    var prefix := staged[..n];
    MergeUnfold(target, staged);
    if k in KeysOf(prefix) {
      MergeFirstWins(target, prefix, k);
      FirstIndexOfPrefix(staged, n, k);
    } else {
      MergeKeys(target, prefix);
      assert FirstIndex(staged, k) == n;
    }
  }

  /** The declarative reading of the merge: existing rows stay; every new key
      gets the first staged row that carries it. */
  function MergeSpec(target: CandleTable, staged: seq<Candle>): (t: CandleTable)
  {
    map k | k in target.Keys + KeysOf(staged) ::
      if k in target then target[k] else staged[FirstIndex(staged, k)]
  }

  /** The row-by-row merge computes exactly the declarative merge: within one
      batch, the first occurrence of a key wins. */
  lemma MergeMatchesSpec(target: CandleTable, staged: seq<Candle>)
    ensures Merge(target, staged).table == MergeSpec(target, staged)
  {
    var r := Merge(target, staged).table;
    var spec := MergeSpec(target, staged);
    MergeKeys(target, staged);
    forall k | k in r
      ensures r[k] == spec[k]
    {
      if k in target {
        MergeKeepsExisting(target, staged, k);
      } else {
        MergeFirstWins(target, staged, k);
      }
    }
  }

  /** The loader computes the declarative merge: existing rows stay, and
      each new key gets the first row of the batch that carries it. */
  lemma LoadMatchesSpec(target: CandleTable, df: seq<Candle>)
    ensures Load(target, df).table == MergeSpec(target, df)
  {
    MergeMatchesSpec(target, df);
  }

  /** A table whose rows sit under their own keys stays that way after a load. */
  lemma LoadKeepsKeyedByRow(target: CandleTable, df: seq<Candle>)
    requires KeyedByRow(target)
    ensures KeyedByRow(Load(target, df).table)
  {
    var t := Load(target, df).table;
    MergeMatchesSpec(target, df);
    forall k | k in t
      ensures KeyOf(t[k]) == k
    {
      if k !in target {
        var i := FirstIndex(df, k);
      }
    }
  }

  /** A batch whose keys are all present already inserts nothing. */
  lemma {:induction false} MergeAbsorbed(target: CandleTable, staged: seq<Candle>)
    requires KeysOf(staged) <= target.Keys
    ensures Merge(target, staged) == MergeResult(target, 0)
  {
    if |staged| > 0 {
      MergeUnfold(target, staged);
      MergeAbsorbed(target, staged[..|staged| - 1]);
    }
  }

  /** Merging two batches one after the other is merging their concatenation. */
  lemma {:induction false} MergeConcat(target: CandleTable, a: seq<Candle>, b: seq<Candle>)
    ensures Merge(Merge(target, a).table, b).table == Merge(target, a + b).table
    ensures Merge(target, a).rowcount + Merge(Merge(target, a).table, b).rowcount
         == Merge(target, a + b).rowcount
  {
    if |b| == 0 {
      assert a + b == a;
    } else {
      var n := |b| - 1;
      MergeConcat(target, a, b[..n]);
      MergeUnfold(Merge(target, a).table, b);
      MergeUnfold(target, a + b);
      assert (a + b)[..|a + b| - 1] == a + b[..n];
      assert (a + b)[|a + b| - 1] == b[n];
    }
  }

  /** Loading the same batch twice leaves the table as one load did, and the
      second load inserts nothing and omits every row. */
  lemma LoadIdempotent(target: CandleTable, df: seq<Candle>)
    ensures Load(Load(target, df).table, df).table == Load(target, df).table
    ensures Load(Load(target, df).table, df).inserted == 0
    ensures Load(Load(target, df).table, df).omitted == |df|
  {
    var once := Load(target, df).table;
    MergeAbsorbed(once, df);
  }

  /** Loading overlapping batches one after the other gives the same table
      as loading their concatenation once, with the same total inserted. */
  lemma LoadSequential(target: CandleTable, a: seq<Candle>, b: seq<Candle>)
    ensures Load(Load(target, a).table, b).table == Load(target, a + b).table
    ensures Load(target, a).inserted + Load(Load(target, a).table, b).inserted
         == Load(target, a + b).inserted
  {
    MergeConcat(target, a, b);
  }

  /** Into an empty table, a batch lands as one row per distinct key. */
  lemma LoadIntoEmpty(df: seq<Candle>)
    ensures |Load(map[], df).table| == |KeysOf(df)| == Load(map[], df).inserted
  {
    LoadInsertedIsGrowth(map[], df);
  }
}
