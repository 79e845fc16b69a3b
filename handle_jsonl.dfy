/** The JSONL event callback: for each event it creates a temporary table, writes
    the event's rows in batches, and on a `swap` event moves the temporary table
    into place and sends the success notification. */
module HandleJsonl {
  import opened JsValues
  import opened Jsonl
  import opened Batches
  import opened DbLog

  /** `argv.table + `_${sheetName}``. */
  function TableName(argv: Argv, sheetName: Value, numberText: real -> string): string {
    argv.table + "_" + ToJsString(sheetName, numberText)
  }

  /** The calls the callback makes for one event, given the clock's `timestamp`
      and the temporary table name `createTempTable` answers with. */
  function EventCalls(argv: Argv, ev: Event, timestamp: string, tmpTableName: string, numberText: real -> string)
    : seq<Call<Row>>
    requires argv.batchSize > 0 || ev.transformedData == []
  {
    var tableName := TableName(argv, ev.sheetName, numberText);
    [CreateTempTable(tableName, ev.columns, ev.tableConfig, timestamp, Some(ev.kind))]
      + InsertCalls(tmpTableName, ev.columns, Chunks(ev.transformedData, argv.batchSize))
      + SwapAndNotify(argv, ev, tmpTableName, tableName)
  }

  /** The calls after the inserts: a swap and a notification for a `swap` event,
      nothing otherwise. */
  function SwapAndNotify(argv: Argv, ev: Event, tmpTableName: string, tableName: string): seq<Call<Row>> {
    var insertedRows := |ev.transformedData|;
    if ev.kind == Swap
    then [SwapTables(tmpTableName, tableName, argv.truncate),
          SendNotification(argv.slackNotifyUrl, SuccessMessage(insertedRows, tableName),
                           MakeReport(argv, tableName, ev.summary, insertedRows, ev.sheetName))]
    else []
  }

  /** The callback (lib/handleJSONL.mjs:13-53). */
  method HandleEvent(argv: Argv, ev: Event, timestamp: string, tmpTableName: string, numberText: real -> string)
    returns (calls: seq<Call<Row>>)
    requires argv.batchSize > 0 || ev.transformedData == []
    ensures calls == EventCalls(argv, ev, timestamp, tmpTableName, numberText)
  {
    var tableName := argv.table + "_" + ToJsString(ev.sheetName, numberText);
    calls := [CreateTempTable(tableName, ev.columns, ev.tableConfig, timestamp, Some(ev.kind))];
    var summary := ev.summary;
    var inserts, insertedRows := InsertInBatches(tmpTableName, ev.columns, ev.transformedData, argv.batchSize);
    calls := calls + inserts;
    if argv.truncate && ev.kind == Swap {
      calls := calls + [SwapTables(tmpTableName, tableName, true)];
    } else if ev.kind == Swap {
      calls := calls + [SwapTables(tmpTableName, tableName, false)];
    }
    if ev.kind == Swap {
      var summaryData := MakeReport(argv, tableName, summary, insertedRows, ev.sheetName);
      var successMessage := SuccessMessage(insertedRows, tableName);
      calls := calls + [SendNotification(argv.slackNotifyUrl, successMessage, summaryData)];
    }
  }

  /** Where each call of an event sits: the create at 0, the inserts at
      1..|inserts|, then the tail. */
  lemma EventCallsLayout(argv: Argv, ev: Event, timestamp: string, tmpTableName: string, numberText: real -> string)
    requires argv.batchSize > 0 || ev.transformedData == []
    ensures var calls := EventCalls(argv, ev, timestamp, tmpTableName, numberText);
      var inserts := InsertCalls(tmpTableName, ev.columns, Chunks(ev.transformedData, argv.batchSize));
      var tail := SwapAndNotify(argv, ev, tmpTableName, TableName(argv, ev.sheetName, numberText));
      && |calls| == 1 + |inserts| + |tail|
      && (forall i :: 0 < i <= |inserts| ==> calls[i] == inserts[i - 1] && calls[i].InsertBatch?)
      && (forall i :: 1 + |inserts| <= i < |calls| ==>
            calls[i] == tail[i - 1 - |inserts|] && !calls[i].InsertBatch? && !calls[i].CreateTempTable?)
  {
    InsertCallsOnlyInsert(tmpTableName, ev.columns, Chunks(ev.transformedData, argv.batchSize));
  }

  /** `createTempTable` comes first, exactly once, with the table name built from
      the sheet name and with the event's kind. */
  lemma CreateComesFirst(argv: Argv, ev: Event, timestamp: string, tmpTableName: string, numberText: real -> string)
    requires argv.batchSize > 0 || ev.transformedData == []
    ensures var calls := EventCalls(argv, ev, timestamp, tmpTableName, numberText);
      && calls[0] == CreateTempTable(TableName(argv, ev.sheetName, numberText), ev.columns, ev.tableConfig,
                                     timestamp, Some(ev.kind))
      && forall i :: 0 < i < |calls| ==> !calls[i].CreateTempTable?
  {
    EventCallsLayout(argv, ev, timestamp, tmpTableName, numberText);
  }

  /** The inserts write every row of the event into the temporary table, in order,
      in batches of 1 to `batchSize` rows; an empty event issues no insert. */
  lemma InsertsWriteEvent(argv: Argv, ev: Event, timestamp: string, tmpTableName: string, numberText: real -> string)
    requires argv.batchSize > 0 || ev.transformedData == []
    ensures var calls := EventCalls(argv, ev, timestamp, tmpTableName, numberText);
      && InsertedRows(calls) == ev.transformedData
      && (forall i :: 0 <= i < |calls| && calls[i].InsertBatch? ==>
            calls[i].tmpTableName == tmpTableName && calls[i].columns == ev.columns
            && 0 < |calls[i].rows| <= argv.batchSize)
      && (ev.transformedData == [] <==> (forall i :: 0 <= i < |calls| ==> !calls[i].InsertBatch?))
  {
    var tableName := TableName(argv, ev.sheetName, numberText);
    var create := [CreateTempTable(tableName, ev.columns, ev.tableConfig, timestamp, Some(ev.kind))];
    var inserts := InsertCalls(tmpTableName, ev.columns, Chunks(ev.transformedData, argv.batchSize));
    var tail := SwapAndNotify(argv, ev, tmpTableName, tableName);
    var calls := EventCalls(argv, ev, timestamp, tmpTableName, numberText);
    assert calls == create + inserts + tail;
    InsertLoopWritesAll(tmpTableName, ev.columns, ev.transformedData, argv.batchSize);
    EventCallsLayout(argv, ev, timestamp, tmpTableName, numberText);
    InsertedRowsAppend(create + inserts, tail);
    InsertedRowsAppend(create, inserts);
    assert InsertedRows(create) == [] by {
      assert create[1..] == [];
    }
    assert InsertedRows(tail) == [] by {
      if ev.kind == Swap {
        assert tail[1..][1..] == [];
      }
    }
    forall i | 0 < i < |calls| && i <= |inserts| ensures calls[i] == inserts[i - 1] {
    }
  }

  /** The tail holds one swap and one notification for a `swap` event, and is
      empty otherwise. */
  lemma SwapAndNotifyCounts(argv: Argv, ev: Event, tmpTableName: string, tableName: string, kind: CallKind)
    requires kind == SwapCall || kind == NotifyCall
    ensures CountCalls(SwapAndNotify(argv, ev, tmpTableName, tableName), kind) == if ev.kind == Swap then 1 else 0
  {
    var tail := SwapAndNotify(argv, ev, tmpTableName, tableName);
    if ev.kind == Swap {
      var rest := tail[1..];
      assert rest == [tail[1]] && rest[1..] == [];
      assert KindOf(tail[0]) == SwapCall && KindOf(rest[0]) == NotifyCall;
      assert CountCalls(rest, kind) == (if kind == NotifyCall then 1 else 0) + CountCalls(rest[1..], kind);
    }
  }

  /** `swapTables` and the notification each happen once for a `swap` event and
      never for another event. */
  lemma SwapOnlyOnSwapEvent(argv: Argv, ev: Event, timestamp: string, tmpTableName: string, numberText: real -> string)
    requires argv.batchSize > 0 || ev.transformedData == []
    ensures var calls := EventCalls(argv, ev, timestamp, tmpTableName, numberText);
      && CountCalls(calls, SwapCall) == (if ev.kind == Swap then 1 else 0)
      && CountCalls(calls, NotifyCall) == (if ev.kind == Swap then 1 else 0)
  {
    var tableName := TableName(argv, ev.sheetName, numberText);
    var create: seq<Call<Row>> := [CreateTempTable(tableName, ev.columns, ev.tableConfig, timestamp, Some(ev.kind))];
    var inserts := InsertCalls(tmpTableName, ev.columns, Chunks(ev.transformedData, argv.batchSize));
    var tail := SwapAndNotify(argv, ev, tmpTableName, tableName);
    assert EventCalls(argv, ev, timestamp, tmpTableName, numberText) == create + inserts + tail;
    forall kind | kind == SwapCall || kind == NotifyCall
      ensures CountCalls(create + inserts + tail, kind) == if ev.kind == Swap then 1 else 0
    {
      CountCallsAppend(create + inserts, tail, kind);
      CountCallsAppend(create, inserts, kind);
      InsertCallsCount(tmpTableName, ev.columns, Chunks(ev.transformedData, argv.batchSize), kind);
      SwapAndNotifyCounts(argv, ev, tmpTableName, tableName, kind);
      assert CountCalls(create, kind) == 0 by {
        assert create[1..] == [];
      }
    }
  }

  /** The swap comes after every insert, moves the temporary table onto the
      sheet's table, and truncates exactly when `--truncate` was given. */
  lemma SwapAfterInserts(argv: Argv, ev: Event, timestamp: string, tmpTableName: string, numberText: real -> string)
    requires argv.batchSize > 0 || ev.transformedData == []
    ensures var calls := EventCalls(argv, ev, timestamp, tmpTableName, numberText);
      forall i :: 0 <= i < |calls| && calls[i].SwapTables? ==>
        && calls[i] == SwapTables(tmpTableName, TableName(argv, ev.sheetName, numberText), argv.truncate)
        && forall j :: 0 <= j < |calls| && calls[j].InsertBatch? ==> j < i
  {
    var calls := EventCalls(argv, ev, timestamp, tmpTableName, numberText);
    var inserts := InsertCalls(tmpTableName, ev.columns, Chunks(ev.transformedData, argv.batchSize));
    var tail := SwapAndNotify(argv, ev, tmpTableName, TableName(argv, ev.sheetName, numberText));
    EventCallsLayout(argv, ev, timestamp, tmpTableName, numberText);
    forall i | 0 <= i < |calls| && calls[i].SwapTables?
      ensures i > |inserts| && calls[i] == tail[i - 1 - |inserts|]
    {
    }
  }

  /** The notification goes to `--slack-notify-url`, names the rows inserted and
      the sheet's table, and its report counts the rows inserted as valid and
      the summary's counts, absent ones read as 0, as total. */
  lemma NotificationReports(argv: Argv, ev: Event, timestamp: string, tmpTableName: string, numberText: real -> string)
    requires argv.batchSize > 0 || ev.transformedData == []
    ensures var calls := EventCalls(argv, ev, timestamp, tmpTableName, numberText);
      var tableName := TableName(argv, ev.sheetName, numberText);
      forall i :: 0 <= i < |calls| && calls[i].SendNotification? ==>
        && calls[i].url == argv.slackNotifyUrl
        && calls[i].message == SuccessMessage(|ev.transformedData|, tableName)
        && calls[i].report.validRows == |ev.transformedData|
        && calls[i].report.totalRows == OrZero(ev.summary.totalRows) + OrZero(ev.summary.emptyRows)
                                        + OrZero(ev.summary.skippedRows)
        && calls[i].report.tableName == tableName
  {
    var calls := EventCalls(argv, ev, timestamp, tmpTableName, numberText);
    var tableName := TableName(argv, ev.sheetName, numberText);
    var n := |ev.transformedData|;
    forall i | 0 <= i < |calls| && calls[i].SendNotification?
      ensures calls[i] == SendNotification(argv.slackNotifyUrl, SuccessMessage(n, tableName),
                                           MakeReport(argv, tableName, ev.summary, n, ev.sheetName))
    {
      NotificationAt(argv, ev, timestamp, tmpTableName, numberText, i);
    }
  }

  lemma NotificationAt(argv: Argv, ev: Event, timestamp: string, tmpTableName: string, numberText: real -> string, i: int)
    requires argv.batchSize > 0 || ev.transformedData == []
    requires 0 <= i < |EventCalls(argv, ev, timestamp, tmpTableName, numberText)|
    requires EventCalls(argv, ev, timestamp, tmpTableName, numberText)[i].SendNotification?
    ensures var tableName := TableName(argv, ev.sheetName, numberText);
      var n := |ev.transformedData|;
      EventCalls(argv, ev, timestamp, tmpTableName, numberText)[i]
        == SendNotification(argv.slackNotifyUrl, SuccessMessage(n, tableName),
                            MakeReport(argv, tableName, ev.summary, n, ev.sheetName))
  {
    var inserts := InsertCalls(tmpTableName, ev.columns, Chunks(ev.transformedData, argv.batchSize));
    var tail := SwapAndNotify(argv, ev, tmpTableName, TableName(argv, ev.sheetName, numberText));
    EventCallsLayout(argv, ev, timestamp, tmpTableName, numberText);
    assert i > |inserts|;
  }

  /** The calls of all events, in order, the `i`-th event given the `i`-th
      timestamp and temporary table name. */
  function ImportCalls(argv: Argv, events: seq<Event>, timestamps: nat -> string, tmpTableNames: nat -> string,
                       numberText: real -> string): seq<Call<Row>>
    requires argv.batchSize > 0 || forall e :: e in events ==> e.transformedData == []
  {
    if events == [] then []
    else
      var n := |events| - 1;
      ImportCalls(argv, events[..n], timestamps, tmpTableNames, numberText)
        + EventCalls(argv, events[n], timestamps(n), tmpTableNames(n), numberText)
  }

  /** The rows an import writes are the rows of its events, in order. */
  lemma {:induction false} ImportInsertsEmitted(argv: Argv, events: seq<Event>, timestamps: nat -> string,
                                                tmpTableNames: nat -> string, numberText: real -> string)
    requires argv.batchSize > 0 || forall e :: e in events ==> e.transformedData == []
    ensures InsertedRows(ImportCalls(argv, events, timestamps, tmpTableNames, numberText)) == Emitted(events)
  {
    if events != [] {
      var n := |events| - 1;
      ImportInsertsEmitted(argv, events[..n], timestamps, tmpTableNames, numberText);
      InsertsWriteEvent(argv, events[n], timestamps(n), tmpTableNames(n), numberText);
      InsertedRowsAppend(ImportCalls(argv, events[..n], timestamps, tmpTableNames, numberText),
                         EventCalls(argv, events[n], timestamps(n), tmpTableNames(n), numberText));
    }
  }

  /** When nothing is emitted, no event carries a row. */
  lemma {:induction false} NothingEmitted(events: seq<Event>)
    requires Emitted(events) == []
    ensures forall e :: e in events ==> e.transformedData == []
  {
    if events != [] {
      NothingEmitted(events[..|events| - 1]);
      assert forall e :: e in events ==> e in events[..|events| - 1] || e == events[|events| - 1];
    }
  }

  /** End to end (lib/handleJSONL.mjs:9-55 with lib/jsonl.mjs:13-126): the rows
      written to the temporary tables over a whole import are the accepted
      records of the file, each transformed under the configuration in force when
      it arrived, each exactly once and in input order. A batch size that is not
      positive is only harmless for a file without records. */
  lemma ImportWritesEveryRecord(argv: Argv, lines: seq<string>, ctx: Context,
                                timestamps: nat -> string, tmpTableNames: nat -> string)
    requires argv.batchSize > 0 || Records(lines, ctx) == []
    ensures var events := Finish(Run(lines, ctx)).events;
      && (argv.batchSize > 0 || forall e :: e in events ==> e.transformedData == [])
      && InsertedRows(ImportCalls(argv, events, timestamps, tmpTableNames, ctx.numberText))
         == RowsOf(Run(lines, ctx).arrivals, ctx.parseTime)
      && RecordsOf(Run(lines, ctx).arrivals) == Records(lines, ctx)
  {
    var st := Run(lines, ctx);
    var events := Finish(st).events;
    Conservation(lines, ctx);
    if argv.batchSize <= 0 {
      assert st.arrivals == [];
      NothingEmitted(events);
    }
    ImportInsertsEmitted(argv, events, timestamps, tmpTableNames, ctx.numberText);
  }
}
