/** The database and notification calls the handlers make, recorded in order.
    `createTempTable`, `insertBatch`, `swapTables` and `sendSlackNotification`
    live in modules outside this model, so each call is an entry in a log. */
module DbLog {
  import opened JsValues
  import opened TableConfigJsonl
  import opened Jsonl
  import opened Batches

  /** The summary attached to a success notification. */
  datatype Report = Report(
    inputFile: string,
    tableName: string,
    totalRows: int,
    validRows: nat,
    emptyRows: int,
    skippedRows: int,
    sheetName: Value)

  /** One call, over rows of type `R`. */
  datatype Call<R> =
    | CreateTempTable(tableName: string, columns: seq<string>, tableConfig: seq<ColumnConfig>,
                      timestamp: string, event: Option<EventKind>)
    | InsertBatch(tmpTableName: string, columns: seq<string>, rows: seq<R>)
    | SwapTables(tmpTableName: string, tableName: string, truncate: bool)
    | SendNotification(url: Option<string>, message: string, report: Report)

  /** The command-line options the handlers read. */
  datatype Argv = Argv(
    inputFile: string,
    table: string,
    batchSize: int,
    truncate: bool,
    slackNotifyUrl: Option<string>)

  /** One `insertBatch` call per batch, in order. */
  function InsertCalls<R>(tmpTableName: string, columns: seq<string>, batches: seq<seq<R>>): (r: seq<Call<R>>)
    ensures |r| == |batches|
  {
    if batches == [] then []
    else [InsertBatch(tmpTableName, columns, batches[0])] + InsertCalls(tmpTableName, columns, batches[1..])
  }

  /** The rows of all `insertBatch` calls of the log, in order. */
  function InsertedRows<R>(calls: seq<Call<R>>): seq<R> {
    if calls == [] then []
    else (if calls[0].InsertBatch? then calls[0].rows else []) + InsertedRows(calls[1..])
  }

  lemma {:induction false} InsertedRowsAppend<R>(a: seq<Call<R>>, b: seq<Call<R>>)
    ensures InsertedRows(a + b) == InsertedRows(a) + InsertedRows(b)
  {
    if a == [] {
      assert a + b == b;
    } else {
      assert (a + b)[0] == a[0] && (a + b)[1..] == a[1..] + b;
      InsertedRowsAppend(a[1..], b);
    }
  }

  /** The insert calls of a batching write exactly the batched rows. */
  lemma {:induction false} InsertCallsWriteAll<R>(tmpTableName: string, columns: seq<string>, batches: seq<seq<R>>)
    ensures InsertedRows(InsertCalls(tmpTableName, columns, batches)) == Flatten(batches)
  {
    if batches != [] {
      InsertCallsWriteAll(tmpTableName, columns, batches[1..]);
    }
  }

  datatype CallKind = CreateCall | InsertCall | SwapCall | NotifyCall

  function KindOf<R>(c: Call<R>): CallKind {
    match c
    case CreateTempTable(_, _, _, _, _) => CreateCall
    case InsertBatch(_, _, _) => InsertCall
    case SwapTables(_, _, _) => SwapCall
    case SendNotification(_, _, _) => NotifyCall
  }

  /** How many calls of the log are of the given kind. */
  function CountCalls<R>(calls: seq<Call<R>>, kind: CallKind): nat {
    if calls == [] then 0 else (if KindOf(calls[0]) == kind then 1 else 0) + CountCalls(calls[1..], kind)
  }

  lemma {:induction false} CountCallsAppend<R>(a: seq<Call<R>>, b: seq<Call<R>>, kind: CallKind)
    ensures CountCalls(a + b, kind) == CountCalls(a, kind) + CountCalls(b, kind)
  {
    if a == [] {
      assert a + b == b;
    } else {
      assert (a + b)[0] == a[0] && (a + b)[1..] == a[1..] + b;
      CountCallsAppend(a[1..], b, kind);
    }
  }

  lemma {:induction false} CountCallsNone<R>(calls: seq<Call<R>>, kind: CallKind)
    requires forall i :: 0 <= i < |calls| ==> KindOf(calls[i]) != kind
    ensures CountCalls(calls, kind) == 0
  {
    if calls != [] {
      CountCallsNone(calls[1..], kind);
    }
  }

  /** A batching issues inserts only. */
  lemma {:induction false} InsertCallsCount<R>(tmpTableName: string, columns: seq<string>, batches: seq<seq<R>>, kind: CallKind)
    requires kind != InsertCall
    ensures CountCalls(InsertCalls(tmpTableName, columns, batches), kind) == 0
  {
    if batches != [] {
      var r := InsertCalls(tmpTableName, columns, batches);
      assert r[1..] == InsertCalls(tmpTableName, columns, batches[1..]);
      InsertCallsCount(tmpTableName, columns, batches[1..], kind);
    }
  }

  /** The insert loop shared by both handlers (lib/handleJSONL.mjs:21-28,
      lib/handleXLSX.mjs:22-29): consecutive slices of `batchSize` rows go to
      `insertBatch` and `insertedRows` adds up their lengths. A batch size that
      is not positive never ends the loop unless there are no rows. */
  method InsertInBatches<R>(tmpTableName: string, columns: seq<string>, transformedData: seq<R>, batchSize: int)
    returns (calls: seq<Call<R>>, insertedRows: nat)
    requires batchSize > 0 || transformedData == []
    ensures calls == InsertCalls(tmpTableName, columns, Chunks(transformedData, batchSize))
    ensures insertedRows == |transformedData|
  {
    calls := [];
    insertedRows := 0;
    ghost var done: seq<seq<R>> := [];
    var n := |transformedData|;
    var i := 0;
    assert transformedData[Min(i, n)..] == transformedData;
    while i < n
      invariant 0 <= i
      invariant insertedRows == Min(i, n)
      invariant done + Chunks(transformedData[Min(i, n)..], batchSize) == Chunks(transformedData, batchSize)
      invariant calls == InsertCalls(tmpTableName, columns, done)
      decreases n - i
    {
      var next := Min(i + batchSize, n);
      var batch := transformedData[i..next];
      ChunksAdvance(transformedData, done, i, batchSize);
      calls := calls + [InsertBatch(tmpTableName, columns, batch)];
      InsertCallsSnoc(tmpTableName, columns, done, batch);
      done := done + [batch];
      insertedRows := insertedRows + |batch|;
      i := i + batchSize;
    }
    assert transformedData[Min(i, n)..] == [];
    assert done == Chunks(transformedData, batchSize);
  }

  lemma ChunksAdvance<T>(s: seq<T>, done: seq<seq<T>>, i: int, size: int)
    requires 0 <= i < |s| && size > 0
    requires done + Chunks(s[i..], size) == Chunks(s, size)
    ensures done + [s[i..Min(i + size, |s|)]] + Chunks(s[Min(i + size, |s|)..], size) == Chunks(s, size)
  {
    ChunksStep(s, i, size);
    var rest := Chunks(s[Min(i + size, |s|)..], size);
    assert done + [s[i..Min(i + size, |s|)]] + rest == done + ([s[i..Min(i + size, |s|)]] + rest);
  }

  /** The first batch of what is left from `i` on is the slice `s[i..i + size]`. */
  lemma ChunksStep<T>(s: seq<T>, i: int, size: int)
    requires 0 <= i < |s| && size > 0
    ensures Chunks(s[i..], size) == [s[i..Min(i + size, |s|)]] + Chunks(s[Min(i + size, |s|)..], size)
  {
    assert s[i..][..Min(size, |s| - i)] == s[i..Min(i + size, |s|)];
    assert s[i..][Min(size, |s| - i)..] == s[Min(i + size, |s|)..];
  }

  lemma {:induction false} InsertCallsSnoc<R>(tmpTableName: string, columns: seq<string>, batches: seq<seq<R>>, batch: seq<R>)
    ensures InsertCalls(tmpTableName, columns, batches + [batch])
         == InsertCalls(tmpTableName, columns, batches) + [InsertBatch(tmpTableName, columns, batch)]
    decreases |batches|
  {
    if batches == [] {
      assert [] + [batch] == [batch];
    } else {
      assert (batches + [batch])[0] == batches[0] && (batches + [batch])[1..] == batches[1..] + [batch];
      InsertCallsSnoc(tmpTableName, columns, batches[1..], batch);
    }
  }

  /** The `i`-th insert call writes the `i`-th batch. */
  lemma {:induction false} InsertCallsAt<R>(tmpTableName: string, columns: seq<string>, batches: seq<seq<R>>, i: int)
    requires 0 <= i < |batches|
    ensures InsertCalls(tmpTableName, columns, batches)[i] == InsertBatch(tmpTableName, columns, batches[i])
    decreases i
  {
    if i > 0 {
      InsertCallsAt(tmpTableName, columns, batches[1..], i - 1);
    }
  }

  /** What the insert loop writes: every batch goes to `tmpTableName` with the
      event's columns and holds between 1 and `batchSize` rows, and the batches
      together are `transformedData`, in order. No rows means no call. */
  lemma InsertLoopWritesAll<R>(tmpTableName: string, columns: seq<string>, transformedData: seq<R>, batchSize: int)
    requires batchSize > 0 || transformedData == []
    ensures var calls := InsertCalls(tmpTableName, columns, Chunks(transformedData, batchSize));
      && InsertedRows(calls) == transformedData
      && (forall i :: 0 <= i < |calls| ==>
            calls[i].InsertBatch? && calls[i].tmpTableName == tmpTableName && calls[i].columns == columns
            && 0 < |calls[i].rows| <= batchSize)
      && (transformedData == [] <==> calls == [])
  {
    var batches := Chunks(transformedData, batchSize);
    InsertCallsWriteAll(tmpTableName, columns, batches);
    ChunkSizes(transformedData, batchSize);
    forall i | 0 <= i < |batches| ensures InsertCalls(tmpTableName, columns, batches)[i] == InsertBatch(tmpTableName, columns, batches[i]) {
      InsertCallsAt(tmpTableName, columns, batches, i);
    }
  }

  /** Every call of a batching is an insert into `tmpTableName` with `columns`. */
  lemma InsertCallsOnlyInsert<R>(tmpTableName: string, columns: seq<string>, batches: seq<seq<R>>)
    ensures var calls := InsertCalls(tmpTableName, columns, batches);
      forall i :: 0 <= i < |calls| ==>
        calls[i].InsertBatch? && calls[i].tmpTableName == tmpTableName && calls[i].columns == columns
  {
    forall i | 0 <= i < |batches|
      ensures InsertCalls(tmpTableName, columns, batches)[i] == InsertBatch(tmpTableName, columns, batches[i])
    {
      InsertCallsAt(tmpTableName, columns, batches, i);
    }
  }

  /** `✅ Successfully imported ${insertedRows} rows into ${tableName}`. */
  function SuccessMessage(insertedRows: nat, tableName: string): string {
    "\U{2705} Successfully imported " + NatToString(insertedRows) + " rows into " + tableName
  }

  /** `const { emptyRows = 0, ... } = summary`: an absent field reads as 0. */
  function OrZero(v: Option<int>): int {
    if v.Some? then v.value else 0
  }

  /** The notification summary (lib/handleJSONL.mjs:39-48, lib/handleXLSX.mjs:40-49). */
  function MakeReport(argv: Argv, tableName: string, summary: Summary, insertedRows: nat, sheetName: Value): (r: Report)
    ensures r.totalRows == OrZero(summary.totalRows) + OrZero(summary.emptyRows) + OrZero(summary.skippedRows)
    ensures r.validRows == insertedRows
    ensures r.emptyRows == OrZero(summary.emptyRows) && r.skippedRows == OrZero(summary.skippedRows)
    ensures r.inputFile == Basename(argv.inputFile) && r.tableName == tableName && r.sheetName == sheetName
  {
    var emptyRows, skippedRows, totalRows := OrZero(summary.emptyRows), OrZero(summary.skippedRows), OrZero(summary.totalRows);
    Report(Basename(argv.inputFile), tableName, totalRows + emptyRows + skippedRows, insertedRows, emptyRows, skippedRows, sheetName)
  }
}
