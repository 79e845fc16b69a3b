/** The XLSX sheet callback: for each sheet it creates a temporary table, writes
    the sheet's rows in batches, moves the temporary table into place and sends
    the success notification. The sheets come from a producer outside this
    model, so a sheet is given as a value with rows of any type `R`. */
module HandleXlsx {
  import opened JsValues
  import opened TableConfigJsonl
  import opened Jsonl
  import opened Batches
  import opened DbLog

  /** The object the producer passes to the callback (its `elapsed` text and any
      other field are not read). */
  datatype SheetEvent<R> = SheetEvent(
    columns: seq<string>,
    transformedData: seq<R>,
    summary: Summary,
    tableConfig: seq<ColumnConfig>,
    sheetId: Value)

  /** `argv.table + `_sheet${sheetId}``. */
  function TableName(argv: Argv, sheetId: Value, numberText: real -> string): string {
    argv.table + "_sheet" + ToJsString(sheetId, numberText)
  }

  /** The calls the callback makes for one sheet, given the clock's `timestamp`
      and the temporary table name `createTempTable` answers with. */
  function SheetCalls<R>(argv: Argv, sh: SheetEvent<R>, timestamp: string, tmpTableName: string,
                         numberText: real -> string): seq<Call<R>>
    requires argv.batchSize > 0 || sh.transformedData == []
  {
    var tableName := TableName(argv, sh.sheetId, numberText);
    [CreateTempTable(tableName, sh.columns, sh.tableConfig, timestamp, None)]
      + InsertCalls(tmpTableName, sh.columns, Chunks(sh.transformedData, argv.batchSize))
      + SwapAndNotify(argv, sh, tmpTableName, tableName)
  }

  /** The calls after the inserts: always a swap and a notification. */
  function SwapAndNotify<R>(argv: Argv, sh: SheetEvent<R>, tmpTableName: string, tableName: string): seq<Call<R>> {
    var insertedRows := |sh.transformedData|;
    [SwapTables(tmpTableName, tableName, argv.truncate),
     SendNotification(argv.slackNotifyUrl, SuccessMessage(insertedRows, tableName),
                      MakeReport(argv, tableName, sh.summary, insertedRows, sh.sheetId))]
  }

  /** The callback (lib/handleXLSX.mjs:14-54). */
  method HandleSheet<R>(argv: Argv, sh: SheetEvent<R>, timestamp: string, tmpTableName: string,
                        numberText: real -> string)
    returns (calls: seq<Call<R>>)
    requires argv.batchSize > 0 || sh.transformedData == []
    ensures calls == SheetCalls(argv, sh, timestamp, tmpTableName, numberText)
  {
    var tableName := argv.table + "_sheet" + ToJsString(sh.sheetId, numberText);
    calls := [CreateTempTable(tableName, sh.columns, sh.tableConfig, timestamp, None)];
    var summary := sh.summary;
    var inserts, insertedRows := InsertInBatches(tmpTableName, sh.columns, sh.transformedData, argv.batchSize);
    calls := calls + inserts;
    if argv.truncate {
      calls := calls + [SwapTables(tmpTableName, tableName, true)];
    } else {
      calls := calls + [SwapTables(tmpTableName, tableName, false)];
    }
    var summaryData := MakeReport(argv, tableName, summary, insertedRows, sh.sheetId);
    var successMessage := SuccessMessage(insertedRows, tableName);
    calls := calls + [SendNotification(argv.slackNotifyUrl, successMessage, summaryData)];
  }

  /** Where each call of a sheet sits: the create at 0, the inserts at
      1..|inserts|, then the swap and the notification. */
  lemma SheetCallsLayout<R>(argv: Argv, sh: SheetEvent<R>, timestamp: string, tmpTableName: string,
                            numberText: real -> string)
    requires argv.batchSize > 0 || sh.transformedData == []
    ensures var calls := SheetCalls(argv, sh, timestamp, tmpTableName, numberText);
      var inserts := InsertCalls(tmpTableName, sh.columns, Chunks(sh.transformedData, argv.batchSize));
      var tail := SwapAndNotify(argv, sh, tmpTableName, TableName(argv, sh.sheetId, numberText));
      && |calls| == 3 + |inserts|
      && (forall i :: 0 < i <= |inserts| ==> calls[i] == inserts[i - 1] && calls[i].InsertBatch?)
      && calls[1 + |inserts|] == tail[0] && calls[2 + |inserts|] == tail[1]
  {
    InsertCallsOnlyInsert(tmpTableName, sh.columns, Chunks(sh.transformedData, argv.batchSize));
  }

  /** `createTempTable` comes first, exactly once, with the table name built from
      the sheet id and with no event. */
  lemma CreateComesFirst<R>(argv: Argv, sh: SheetEvent<R>, timestamp: string, tmpTableName: string,
                            numberText: real -> string)
    requires argv.batchSize > 0 || sh.transformedData == []
    ensures var calls := SheetCalls(argv, sh, timestamp, tmpTableName, numberText);
      && calls[0] == CreateTempTable(TableName(argv, sh.sheetId, numberText), sh.columns, sh.tableConfig,
                                     timestamp, None)
      && forall i :: 0 < i < |calls| ==> !calls[i].CreateTempTable?
  {
    SheetCallsLayout(argv, sh, timestamp, tmpTableName, numberText);
  }

  /** The inserts write every row of the sheet into the temporary table, in order,
      in batches of 1 to `batchSize` rows; an empty sheet issues no insert. */
  lemma InsertsWriteSheet<R>(argv: Argv, sh: SheetEvent<R>, timestamp: string, tmpTableName: string,
                             numberText: real -> string)
    requires argv.batchSize > 0 || sh.transformedData == []
    ensures var calls := SheetCalls(argv, sh, timestamp, tmpTableName, numberText);
      && InsertedRows(calls) == sh.transformedData
      && (forall i :: 0 <= i < |calls| && calls[i].InsertBatch? ==>
            calls[i].tmpTableName == tmpTableName && calls[i].columns == sh.columns
            && 0 < |calls[i].rows| <= argv.batchSize)
      && (sh.transformedData == [] <==> (forall i :: 0 <= i < |calls| ==> !calls[i].InsertBatch?))
  {
    var tableName := TableName(argv, sh.sheetId, numberText);
    var create: seq<Call<R>> := [CreateTempTable(tableName, sh.columns, sh.tableConfig, timestamp, None)];
    var inserts := InsertCalls(tmpTableName, sh.columns, Chunks(sh.transformedData, argv.batchSize));
    var tail := SwapAndNotify(argv, sh, tmpTableName, tableName);
    var calls := SheetCalls(argv, sh, timestamp, tmpTableName, numberText);
    assert calls == create + inserts + tail;
    InsertLoopWritesAll(tmpTableName, sh.columns, sh.transformedData, argv.batchSize);
    SheetCallsLayout(argv, sh, timestamp, tmpTableName, numberText);
    InsertedRowsAppend(create + inserts, tail);
    InsertedRowsAppend(create, inserts);
    assert InsertedRows(create) == [] by {
      assert create[1..] == [];
    }
    assert InsertedRows(tail) == [] by {
      assert tail[1..][1..] == [];
    }
  }

  /** The tail holds one swap and one notification. */
  lemma SwapAndNotifyCounts<R>(argv: Argv, sh: SheetEvent<R>, tmpTableName: string, tableName: string, kind: CallKind)
    requires kind == SwapCall || kind == NotifyCall
    ensures CountCalls(SwapAndNotify(argv, sh, tmpTableName, tableName), kind) == 1
  {
    var tail := SwapAndNotify(argv, sh, tmpTableName, tableName);
    var rest := tail[1..];
    assert rest == [tail[1]] && rest[1..] == [];
    assert KindOf(tail[0]) == SwapCall && KindOf(rest[0]) == NotifyCall;
    assert CountCalls(rest, kind) == (if kind == NotifyCall then 1 else 0) + CountCalls(rest[1..], kind);
  }

  /** Every sheet ends with exactly one swap and exactly one notification. */
  lemma SwapAndNotifyOnce<R>(argv: Argv, sh: SheetEvent<R>, timestamp: string, tmpTableName: string,
                             numberText: real -> string)
    requires argv.batchSize > 0 || sh.transformedData == []
    ensures var calls := SheetCalls(argv, sh, timestamp, tmpTableName, numberText);
      CountCalls(calls, SwapCall) == 1 && CountCalls(calls, NotifyCall) == 1
  {
    var tableName := TableName(argv, sh.sheetId, numberText);
    var create: seq<Call<R>> := [CreateTempTable(tableName, sh.columns, sh.tableConfig, timestamp, None)];
    var inserts := InsertCalls(tmpTableName, sh.columns, Chunks(sh.transformedData, argv.batchSize));
    var tail := SwapAndNotify(argv, sh, tmpTableName, tableName);
    assert SheetCalls(argv, sh, timestamp, tmpTableName, numberText) == create + inserts + tail;
    forall kind | kind == SwapCall || kind == NotifyCall
      ensures CountCalls(create + inserts + tail, kind) == 1
    {
      CountCallsAppend(create + inserts, tail, kind);
      CountCallsAppend(create, inserts, kind);
      InsertCallsCount(tmpTableName, sh.columns, Chunks(sh.transformedData, argv.batchSize), kind);
      SwapAndNotifyCounts(argv, sh, tmpTableName, tableName, kind);
      assert CountCalls(create, kind) == 0 by {
        assert create[1..] == [];
      }
    }
  }

  /** After the inserts come the swap, which moves the temporary table onto the
      sheet's table and truncates exactly when `--truncate` was given, and then
      the notification, which reports the rows inserted as valid and the
      summary's counts, absent ones read as 0, as total. */
  lemma SwapThenNotify<R>(argv: Argv, sh: SheetEvent<R>, timestamp: string, tmpTableName: string,
                          numberText: real -> string)
    requires argv.batchSize > 0 || sh.transformedData == []
    ensures var calls := SheetCalls(argv, sh, timestamp, tmpTableName, numberText);
      var tableName := TableName(argv, sh.sheetId, numberText);
      var n := |calls|;
      && n >= 3
      && calls[n - 2] == SwapTables(tmpTableName, tableName, argv.truncate)
      && (forall j :: 0 <= j < |calls| && calls[j].InsertBatch? ==> j < n - 2)
      && calls[n - 1].SendNotification?
      && calls[n - 1].url == argv.slackNotifyUrl
      && calls[n - 1].message == SuccessMessage(|sh.transformedData|, tableName)
      && calls[n - 1].report.validRows == |sh.transformedData|
      && calls[n - 1].report.totalRows == OrZero(sh.summary.totalRows) + OrZero(sh.summary.emptyRows)
                                          + OrZero(sh.summary.skippedRows)
      && calls[n - 1].report.tableName == tableName
  {
    SheetCallsLayout(argv, sh, timestamp, tmpTableName, numberText);
  }
}
