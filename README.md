# JSONL import pipeline of import_to_psql, in Dafny

This project models the core of `import_to_psql`, a command-line tool that loads
line-delimited JSON (and, through a separate producer, spreadsheet sheets) into
PostgreSQL. Four pieces are modelled:

- **Schema derivation** (`lib/getTableConfigJSONL.mjs`, module `TableConfigJsonl`).
  One record's keys and an override document become an ordered column
  configuration. The `sheet` key is dropped, defaults are merged with
  per-field overrides, and non-skipped columns that share an output name are
  renamed `name_1 … name_k`. The base configurations are built as values. The
  two passes that count names and overwrite `sqlColumn` in place are methods
  over an array, proved equal to a declarative resolution `Resolve`.
- **The sequencer** (`lib/jsonl.mjs`, module `Jsonl`). Each line is handled by a
  closure over `header`, `currentSheet`, the `transformedData` buffer and the
  `noOfRows` dictionary:
  - a blank line or a line JSON.parse rejects is skipped;
  - otherwise the record is counted against its group;
  - on a group change the buffer is handed to a `swap` event;
  - a buffer holding 50,000 rows is handed to a `create` or `insert` event;
  - then the row is transformed and buffered;
  - at the end of the input one more `swap` event is emitted and `onComplete` runs.

  The method `ParseAndTransformJsonl` keeps the closure's variables as locals and
  is proved against a functional specification `Run`/`Finish`. Lemmas over that
  specification prove the invariant between lines, conservation of rows, the
  labelling of events and the cumulative counts.
- **The JSONL event callback** (`lib/handleJSONL.mjs`, module `HandleJsonl`) and
  **the XLSX sheet callback** (`lib/handleXLSX.mjs`, module `HandleXlsx`). Each
  creates a temporary table, inserts the rows in `batchSize` slices, swaps the
  table into place and sends a notification. The JSONL callback swaps and
  notifies only for `swap` events; the XLSX callback always does. The database
  and the notification service are outside the model. Each call is an entry
  (`DbLog.Call`) appended to a log. The shared insert loop is
  `DbLog.InsertInBatches`; the slicing it performs is `Batches.Chunks`.

Collaborators the code calls but that are not modelled are parameters:

- JSON.parse;
- the `moment.tz` timestamp parse in the configured time zone;
- the engine's number-to-text conversion;
- the override document;
- the clock's `YYYYMMDDHHMMSS` timestamp;
- the temporary table name that `createTempTable` returns.

JavaScript semantics the code relies on are written out, most of them in `JsValues`:

- `undefined`, and truthiness;
- `===`, under which two arrays or objects are never equal;
- `String(v)` as used for object keys and template literals;
- `String.prototype.trim` for blank lines;
- POSIX `path.basename`;
- `dict[k] || 0` on a counting dictionary, in `TableConfigJsonl.Lookup`.

Three behaviours of the code are easy to miss; the model keeps them:

- **Missing timestamps.** A `timestamp` column whose value is missing is passed
  through as `undefined`. It is not turned into `null`, because the parse is only
  attempted for a truthy value (`lib/jsonl.mjs:78`, `Jsonl.MissingTimestampPassesThrough`).
- **Summary counters.** Every event summary reports `totalRows` and
  `processedRows` as 0. They are read after `splice(0)` has emptied the buffer
  (`lib/jsonl.mjs:41-45`, `Jsonl.WellFormed`).
- **Duplicate names.** Resolution does not always leave distinct names: the
  keys `x`, `y`, `a_1`, with `x` and `y` both given the `sqlColumn` `a` by the
  override document, resolve to `a_1`, `a_2`, `a_1`
  (`TableConfigJsonl.DuplicateSuffixCollision`). Distinctness is proved only when
  no non-skipped name is another one followed by `_` and digits
  (`TableConfigJsonl.ResolvedNamesDistinct`, `Jsonl.DerivedColumnsDistinct`).

## Model

| member | source | states |
|---|---|---|
| TableConfigJsonl.TableConfigOverrides | lib/getTableConfigJSONL.mjs:3-9 | a missing or empty path, or a file that does not exist, gives `{}`; the result is an error exactly when a path is given, the file exists and it does not parse; a parsed file gives its document |
| TableConfigJsonl.ApplyOverride | lib/getTableConfigJSONL.mjs:19-28 | each key the override carries replaces the default of that key, each key it omits keeps its default, and `{}` changes nothing |
| TableConfigJsonl.DefaultConfig | lib/getTableConfigJSONL.mjs:19-27 | the defaults of a field: header and `sqlColumn` its name, type "string", not primary, not-null, skipped or indexed, a hyperlink |
| TableConfigJsonl.OverrideFor | lib/getTableConfigJSONL.mjs:18 | `tableConfigOverrides?.[header] ?? {}`: the field's override object, or the empty one when the document has none |
| TableConfigJsonl.BaseConfig | lib/getTableConfigJSONL.mjs:17-29 | without an override a column is named after its field, has type "string", is not primary, not-null, skipped or indexed, and is a hyperlink; `header` and `sqlColumn` take the override's values when given, else the field name |
| TableConfigJsonl.DataHeaders | lib/getTableConfigJSONL.mjs:15-16 | the kept headers are exactly the input headers other than `sheet`, and the input is unchanged when it has no `sheet` |
| TableConfigJsonl.DataHeadersAppend | lib/getTableConfigJSONL.mjs:15-16 | the filter distributes over concatenation, so input order is kept |
| TableConfigJsonl.BaseConfigs | lib/getTableConfigJSONL.mjs:15-30 | one base configuration per kept header, in input order, each built from that header and its override |
| TableConfigJsonl.Resolve | lib/getTableConfigJSONL.mjs:32-51 | resolution keeps every configuration but its `sqlColumn`; skipped columns and names counted at most once are left unchanged |
| TableConfigJsonl.TableConfigFor | lib/getTableConfigJSONL.mjs:11-54 | the configuration `getTableConfig` returns: the resolution of the base configurations of the record's keys |
| TableConfigJsonl.ResolveAt | lib/getTableConfigJSONL.mjs:42-49 | configuration `i` after the second pass: a non-skipped column whose name is counted more than once takes `_` and its rank among the columns of that name; every other column is unchanged |
| TableConfigJsonl.CountNonSkip | lib/getTableConfigJSONL.mjs:34-38 | the value `columnNameCounts[name]` holds after the given configurations are counted: how many of them are non-skipped and named `name` |
| TableConfigJsonl.Suffixed | lib/getTableConfigJSONL.mjs:48 | the template literal `${baseName}_${k}` |
| TableConfigJsonl.Lookup | lib/getTableConfigJSONL.mjs:37 | `dict[key] \|\| 0` on a counting dictionary: the stored count, or 0 for a missing key |
| TableConfigJsonl.GetTableConfig | lib/getTableConfigJSONL.mjs:11-54 | the array built from the base configurations and rewritten by the two passes equals `Resolve(BaseConfigs(...))`, with one entry per kept header |
| TableConfigJsonl.CountColumnNames | lib/getTableConfigJSONL.mjs:32-39 | after the first pass `columnNameCounts[name] \|\| 0` is the number of non-skipped columns named `name` |
| TableConfigJsonl.NumberDuplicates | lib/getTableConfigJSONL.mjs:41-51 | the second pass, driven by the counts, turns the array into its resolution `Resolve` |
| TableConfigJsonl.CountNonSkipStep | lib/getTableConfigJSONL.mjs:34-38 | counting one more configuration adds one exactly when it is a non-skipped column of that name |
| TableConfigJsonl.CountNonSkipMonotone | lib/getTableConfigJSONL.mjs:34-38 | a longer prefix never counts fewer columns of a name |
| TableConfigJsonl.RankBounds | lib/getTableConfigJSONL.mjs:46-48 | the rank a shared name receives is at least 1 and at most the name's count, and later columns of the name receive larger ranks |
| TableConfigJsonl.Numbered | lib/getTableConfigJSONL.mjs:48 | the list `name_1 … name_k` has `k` entries, the `i`-th being `name_i` |
| TableConfigJsonl.NumberedPrefix | lib/getTableConfigJSONL.mjs:43-50 | among the first `n` columns, the columns of a shared name are renamed `name_1, name_2, …` in order |
| TableConfigJsonl.DuplicatesNumberedInOrder | lib/getTableConfigJSONL.mjs:41-51 | when `k > 1` non-skipped columns share a name they become `name_1 … name_k` in order, the first included |
| TableConfigJsonl.SuffixedShape | lib/getTableConfigJSONL.mjs:48 | `${base}_${k}` is `base`, then `_`, then the digits of `k`, with no `_` after the separator |
| TableConfigJsonl.SuffixedInjective | lib/getTableConfigJSONL.mjs:48 | two suffixed names are equal only when base and number are equal |
| TableConfigJsonl.SharedNameCountsTwice | lib/getTableConfigJSONL.mjs:34-38 | two non-skipped columns with one name make its count at least 2 |
| TableConfigJsonl.ResolvedNamesDistinct | lib/getTableConfigJSONL.mjs:32-51 | when no non-skipped name is another one followed by `_` and digits, resolved non-skipped names are pairwise distinct |
| TableConfigJsonl.DuplicateSuffixCollision | lib/getTableConfigJSONL.mjs:17-51 | without that condition names can collide: the keys `x`, `y`, `a_1`, with `x` and `y` overridden to the `sqlColumn` `a`, resolve to `a_1`, `a_2`, `a_1` |
| JsValues.NatToString | lib/getTableConfigJSONL.mjs:48 | the decimal text of a count is a non-empty string of digits that denotes the count, with no leading zero, one digit long exactly below 10 |
| JsValues.DigitsValue | lib/getTableConfigJSONL.mjs:48 | the number a string of decimal digits denotes, most significant digit first |
| JsValues.NatToStringInjective | lib/getTableConfigJSONL.mjs:48 | different counts have different decimal texts |
| JsValues.Get | lib/jsonl.mjs:77 | a property read is `undefined` exactly when the record lacks the key, and otherwise the stored value |
| JsValues.Truthy | lib/jsonl.mjs:78 | JavaScript truthiness of a property value: `undefined`, `null`, `false`, `0` and `""` are falsy, everything else truthy |
| JsValues.StrictEquals | lib/jsonl.mjs:34 | `===` on property values: equal primitives, or both `undefined`; arrays and objects are never equal |
| JsValues.ToJsString | lib/jsonl.mjs:29 | `String(v)` as used for dictionary keys and template literals: `undefined`, `null`, `true`/`false`, the number's text, the string itself, array elements joined by `,`, `[object Object]` |
| JsValues.JsonToString | lib/handleJSONL.mjs:16 | `String(v)` of a parsed value, as interpolated into the table name |
| JsValues.IsBlank | lib/jsonl.mjs:23 | `line.trim() === ''`: every character is white space or a line terminator |
| JsValues.Basename | lib/handleJSONL.mjs:40 | POSIX `path.basename`: the last segment of the path once trailing slashes are dropped |
| JsValues.StripTrailingSlashesShape | lib/handleJSONL.mjs:40 | dropping trailing slashes leaves a prefix not ending in `/`, and only slashes were dropped |
| JsValues.LastSegmentShape | lib/handleJSONL.mjs:40 | the last segment holds no `/` and is a suffix of the path, either all of it or preceded by `/` |
| JsValues.BasenameShape | lib/handleJSONL.mjs:40 | `path.basename` holds no `/` and is what follows the last `/` once trailing slashes are dropped |
| Jsonl.TransformCell | lib/jsonl.mjs:76-90 | a timestamp column with a truthy value gives the parsed date, or null when the parse fails; a number column with a non-null value gives `Number(val)`, so a missing value gives `Number(undefined)`; every other case passes the raw value through; each case is stated in both directions |
| Jsonl.TransformRow | lib/jsonl.mjs:76-90 | a row has one entry per configuration, skipped ones included, each the transform of that column |
| Jsonl.MissingTimestampPassesThrough | lib/jsonl.mjs:77-89 | a timestamp column whose value is missing passes `undefined` through |
| Jsonl.Columns | lib/jsonl.mjs:37-39 | an event's columns are exactly the `sqlColumn`s of the non-skipped configurations |
| Jsonl.ColumnsAppend | lib/jsonl.mjs:37-39 | the column list keeps header order: one configuration gives its `sqlColumn` unless skipped, and the list of a concatenation is the concatenation of the lists |
| Jsonl.ColumnsDistinct | lib/jsonl.mjs:37-39 | the columns are duplicate-free when the non-skipped names are pairwise distinct |
| Jsonl.DerivedColumnsDistinct | lib/jsonl.mjs:32-39 | the columns of a derived configuration are duplicate-free under the no-suffix-clash condition |
| Jsonl.SheetOf | lib/jsonl.mjs:28 | `json.sheet`, the record's group value, `undefined` when absent |
| Jsonl.Key | lib/jsonl.mjs:29 | the dictionary key `noOfRows[sheet]` uses: `String(sheet)` |
| Jsonl.Total | lib/jsonl.mjs:70 | `noOfRows[currentSheet]` as a value that is `undefined` for a key never counted |
| Jsonl.HeaderBefore | lib/jsonl.mjs:31-33 | the configuration once `header.length === 0` has been tested: derived from the record's keys when it was empty, unchanged otherwise |
| Jsonl.Flush | lib/jsonl.mjs:35-50 | the object handed to the callback: kind, the non-skipped columns, the group, the rows spliced from the buffer, the configuration, and a summary with 0 total, processed, skipped and empty rows and the given `total` |
| Jsonl.CountRecord | lib/jsonl.mjs:28-33 | `noOfRows[String(sheet)]` goes up by one, and the configuration is derived from the record's keys when there is none yet |
| Jsonl.GroupCheck | lib/jsonl.mjs:28-53 | the count followed by the group-change test, in that order |
| Jsonl.SheetChanges | lib/jsonl.mjs:34 | the group test: the record's `sheet` is not `===` to the current group, and the current group's count, read after counting, is positive |
| Jsonl.ChangeCheck | lib/jsonl.mjs:34-53 | on a group change: a `swap` of the buffer under the current configuration and group, an emptied buffer, and a configuration derived from the arriving record |
| Jsonl.SizeKind | lib/jsonl.mjs:57 | the label of a size flush: `create` when the group changed or the arriving record's group count is at most 50,001, `insert` otherwise |
| Jsonl.SizeCheck | lib/jsonl.mjs:55-75 | at 50,000 buffered rows: one event labelled by `SizeKind` with the current group's count as `total`, an emptied buffer, and a configuration derived from the arriving record |
| Jsonl.Push | lib/jsonl.mjs:76-92 | the transformed row is appended to the buffer and the record's `sheet` becomes the current group |
| Jsonl.Accept | lib/jsonl.mjs:28-92 | the closure body for a parsed record: count, group check, size check, push, in that order |
| Jsonl.Records | lib/jsonl.mjs:23-27 | the records of the lines that are kept: non-blank lines JSON.parse accepts, in input order |
| Jsonl.Run | lib/jsonl.mjs:17-100 | the closure's variables after the given lines, each handled in order from the initial values of lines 17-21 |
| Jsonl.Step | lib/jsonl.mjs:22-99 | a blank line, or a line JSON.parse rejects, leaves every variable as it was |
| Jsonl.Finish | lib/jsonl.mjs:101-116 | after the last line exactly one more event is appended, a `swap` carrying the whole buffer under the current configuration, and the buffer is emptied |
| Jsonl.InitialInv | lib/jsonl.mjs:17-21 | the invariant holds for the initial variables |
| Jsonl.GroupCheckFlow | lib/jsonl.mjs:28-53 | counting and the group check keep rows conserved and events well formed, and never grow the buffer |
| Jsonl.SizeCheckFlow | lib/jsonl.mjs:55-75 | the size check keeps rows conserved and events well formed, and leaves the buffer below 50,000 rows |
| Jsonl.PushFlow | lib/jsonl.mjs:76-92 | pushing the transformed row keeps rows conserved and records the record as accepted |
| Jsonl.SheetCountAppend | lib/jsonl.mjs:29-30 | one more record adds one to exactly the count of its group's key |
| Jsonl.AcceptInv | lib/jsonl.mjs:28-92 | the closure keeps the invariant: at most 50,000 buffered rows, every event's and buffered row is an accepted record's transform in order, events well formed, and `noOfRows` counting every accepted record per group |
| Jsonl.StepInv | lib/jsonl.mjs:22-99 | every line keeps the invariant, and only a line that parses adds its record |
| Jsonl.RunInv | lib/jsonl.mjs:22-100 | after every prefix of the input the invariant holds and the accepted records are the parsed lines, in order |
| Jsonl.Conservation | lib/jsonl.mjs:13-117 | the rows of all events, final swap included, are the accepted records transformed in input order; no event carries more than 50,000 rows; every summary reports 0 total, processed, skipped and empty rows |
| Jsonl.CountsAreCumulative | lib/jsonl.mjs:29-30 | `noOfRows[sheet]` counts every accepted record of that group, over all of its runs |
| Jsonl.FullBufferFlushes | lib/jsonl.mjs:34-75 | a record arriving at a full buffer causes exactly one event carrying exactly the buffered rows, before the record is pushed. The event is a swap when the group changed. Otherwise it is `create` while the group's count (arriving record included) is at most 50,001 and `insert` after, with that count as `total`. The configuration is then re-derived from the arriving record |
| Jsonl.EmptyArraySheetSwapsFirst | lib/jsonl.mjs:28-53 | a first record whose `sheet` is `[]` shares the key "" with the initial group `''` but is not `===` to it, so it emits a `swap` of the empty buffer under its own configuration |
| Jsonl.SheetChangeSwaps | lib/jsonl.mjs:34-53 | a group change with the previous group counted hands the previous group's rows, under the old configuration, to a `swap` event; the arriving record is transformed under a configuration derived from its own keys |
| Jsonl.QuietStep | lib/jsonl.mjs:76-92 | within a group and below the limit a record emits nothing and its row is appended to the buffer |
| Jsonl.Count | lib/jsonl.mjs:28-33 | the count step of the closure matches its specification `CountRecord` |
| Jsonl.CheckGroup | lib/jsonl.mjs:34-53 | the group-change step of the closure matches its specification `ChangeCheck` |
| Jsonl.CheckSize | lib/jsonl.mjs:55-75 | the size step of the closure matches its specification `SizeCheck` |
| Jsonl.ProcessRecord | lib/jsonl.mjs:26-92 | the closure body for a parsed record matches its specification `Accept` |
| Jsonl.ParseAndTransformJsonl | lib/jsonl.mjs:13-126 | the events handed to the callback are those of `Finish(Run(lines))`, the last is a `swap`, their rows are the accepted records transformed in input order, every event is well formed, and `onComplete` runs exactly once, after the final `swap` has been handed on |
| Batches.Chunks | lib/handleJSONL.mjs:24-25 | the slices `slice(i, i + batchSize)` concatenate back to the data |
| Batches.ChunkSizes | lib/handleJSONL.mjs:24-25 | every slice holds between 1 and `batchSize` rows, and all but the last exactly `batchSize` |
| Batches.ChunksUnique | lib/handleJSONL.mjs:24-25 | any cutting with those lengths whose pieces concatenate to the data is `Chunks` |
| DbLog.InsertInBatches | lib/handleJSONL.mjs:21-28 | the loop issues one `insertBatch` per slice, in order, and `insertedRows` ends equal to the number of rows |
| DbLog.InsertLoopWritesAll | lib/handleJSONL.mjs:24-28 | the inserted batches together are the data, in order; each goes to the temporary table with the event's columns and holds 1 to `batchSize` rows; no rows means no insert |
| DbLog.InsertCalls | lib/handleJSONL.mjs:24-28 | one `insertBatch(tmpTableName, columns, batch)` call per batch, in order |
| DbLog.InsertCallsWriteAll | lib/handleJSONL.mjs:26 | the insert calls for a list of batches write the batches' concatenation |
| DbLog.SuccessMessage | lib/handleJSONL.mjs:49 | the text `✅ Successfully imported ${insertedRows} rows into ${tableName}` |
| DbLog.OrZero | lib/handleJSONL.mjs:18 | a destructuring default `= 0`: the field's value, or 0 when it is absent |
| DbLog.MakeReport | lib/handleJSONL.mjs:18-48 | the report's total is the summary's total, empty and skipped counts added, absent ones read as 0; valid rows are the rows inserted; the input file is its base name |
| HandleJsonl.TableName | lib/handleJSONL.mjs:16 | `argv.table + `_${sheetName}``, with `String()` of the group value |
| HandleJsonl.EventCalls | lib/handleJSONL.mjs:13-53 | the calls for one event: the create with the event's kind, one insert per `batchSize` slice, then `SwapAndNotify` |
| HandleJsonl.SwapAndNotify | lib/handleJSONL.mjs:31-52 | for a `swap` event, the swap with `argv.truncate` and the success notification with its report; nothing for other events |
| HandleJsonl.HandleEvent | lib/handleJSONL.mjs:13-53 | the callback's calls for an event are `EventCalls` |
| HandleJsonl.EventCallsLayout | lib/handleJSONL.mjs:17-51 | the create comes first, then the inserts, then the swap and notification calls |
| HandleJsonl.CreateComesFirst | lib/handleJSONL.mjs:16-17 | `createTempTable` is called once, first, on `argv.table + "_" + sheetName`, with the event's kind |
| HandleJsonl.InsertsWriteEvent | lib/handleJSONL.mjs:24-28 | the inserts write every row of the event, in order, in batches of 1 to `batchSize`; an empty event issues no insert |
| HandleJsonl.SwapOnlyOnSwapEvent | lib/handleJSONL.mjs:31-52 | `swapTables` and the notification each happen exactly once for a `swap` event and never otherwise |
| HandleJsonl.SwapAfterInserts | lib/handleJSONL.mjs:31-37 | the swap comes after every insert, targets the sheet's table and truncates exactly when `--truncate` is set |
| HandleJsonl.NotificationReports | lib/handleJSONL.mjs:38-51 | the notification goes to the configured URL, names the rows inserted and the table, and reports totals with absent counts read as 0 |
| HandleJsonl.NotificationAt | lib/handleJSONL.mjs:49-51 | a notification call of an event is the success message with its report |
| HandleJsonl.ImportCalls | lib/handleJSONL.mjs:9-55 | the calls of a whole import: one callback run per event, in order, each with its own clock timestamp and temporary table name |
| HandleJsonl.ImportInsertsEmitted | lib/handleJSONL.mjs:9-55 | over a sequence of events the rows inserted are the rows the events carry, in order |
| HandleJsonl.NothingEmitted | lib/jsonl.mjs:41-107 | when no rows are emitted no event carries a row |
| HandleJsonl.ImportWritesEveryRecord | lib/handleJSONL.mjs:9-55 | over a whole import every accepted record is inserted into a temporary table exactly once, in input order, under the configuration in force when it arrived |
| HandleXlsx.TableName | lib/handleXLSX.mjs:17 | `argv.table + `_sheet${sheetId}``, with `String()` of the sheet id |
| HandleXlsx.SheetCalls | lib/handleXLSX.mjs:14-54 | the calls for one sheet: the create with no event, one insert per `batchSize` slice, then `SwapAndNotify` |
| HandleXlsx.SwapAndNotify | lib/handleXLSX.mjs:31-53 | the swap with `argv.truncate`, then the success notification with its report, for every sheet |
| HandleXlsx.HandleSheet | lib/handleXLSX.mjs:14-54 | the callback's calls for a sheet are `SheetCalls` |
| HandleXlsx.SheetCallsLayout | lib/handleXLSX.mjs:18-53 | the create comes first, then the inserts, then the swap, then the notification |
| HandleXlsx.CreateComesFirst | lib/handleXLSX.mjs:17-18 | `createTempTable` is called once, first, on `argv.table + "_sheet" + sheetId`, with no event |
| HandleXlsx.InsertsWriteSheet | lib/handleXLSX.mjs:25-29 | the inserts write every row of the sheet, in order, in batches of 1 to `batchSize`; an empty sheet issues no insert |
| HandleXlsx.SwapAndNotifyOnce | lib/handleXLSX.mjs:32-53 | every sheet gets exactly one swap and exactly one notification |
| HandleXlsx.SwapThenNotify | lib/handleXLSX.mjs:32-53 | after the inserts comes the swap onto the sheet's table, truncating exactly when `--truncate` is set, then the notification with the rows inserted and the totals with absent counts read as 0 |

## Left out

- File reading and readline (`lib/jsonl.mjs:137-170`): the input is a given sequence of lines. `processFileLines` is modelled only as "each line, in order". Its `rl.on('close')` registration after the loop is not modelled.
- The configuration file is read again at every derivation; the model reads one given document. Its existence and parse outcome are modelled separately (`TableConfigOverrides`).
- An unreadable or unparsable configuration file makes `getTableConfig` throw inside the per-line `try`. Such a record has already been counted in `noOfRows` and is then dropped, so with such a file every record is counted and dropped. The error result of `TableConfigOverrides` is not connected to the sequencer: the model assumes a readable, parsable document.
- Override values of the wrong JSON type, keys outside the eight known ones, and a document that is not an object are not modelled. Overrides are typed by field.
- Dictionary keys that clash with `Object.prototype` members (`constructor`, `__proto__`, …) are not modelled; each dictionary is a plain map.
- `sanitizeColumnName` is called when `sqlColumn` is falsy but is neither defined nor imported. Columns are modelled by their `sqlColumn`, so the model does not capture what happens when a configuration has an empty `sqlColumn` (from a `""` key or an override). The source then throws while building the callback's object, before `transformedData.splice(0)` runs (lib/jsonl.mjs:37-41). The catch at line 93 drops the record at every flush point after that, and the final callback throws, so `onComplete` is never called. For such input the conservation and `completions == [|events|]` promises of `Jsonl.Conservation` and `Jsonl.ParseAndTransformJsonl` do not hold of the source.
- JsValues.ToJsString: `String(v)` of an object that has an own `toString` key which is not a function, or of an array holding such an object, throws a TypeError in the source, and the model gives text instead (`[object Object]` for the object). JSON.parse keeps such a key as a plain data property. When this happens to a record's `sheet` at lib/jsonl.mjs:29, the catch at line 93 drops the line with nothing changed. The model counts the record under the key `[object Object]`, may emit a swap, and pushes the row. `Jsonl.Key`, `Jsonl.CountsAreCumulative` and `Jsonl.Conservation` therefore do not describe the source on such input. In the model, not in the source, that `[object Object]` then becomes the group's `sheetName` and reaches the table name of lib/handleJSONL.mjs:16; in the source such a value never gets past line 29, because `currentSheet` is set only at line 92.
- Jsonl.TransformCell: `Number(val)` of such an object, or of an array holding one, throws in the source at lib/jsonl.mjs:87. That happens after the record has been counted (lines 29-30) and after any flush and re-derivation of the configuration (lines 34-75). The record is then dropped without being pushed, and `currentSheet` keeps its value. The model gives the cell `NumberOf(v)` and pushes the row, so `Jsonl.Conservation` and `Jsonl.CountsAreCumulative` do not describe the source on such input.
- JSON.parse, `moment.tz`, `Number(val)` and the number-to-text conversion are uninterpreted parameters. `Number(val)` is kept as a symbolic cell.
- A parsed line that is not an object (a number, a string, null) is treated as whatever record the parse parameter returns, or as rejected.
- `Date.now`, `formatElapsed`, the `elapsed` and `duration` texts and console logging are not modelled. The clock's `YYYYMMDDHHMMSS` timestamp is a parameter.
- A failing callback is not modelled; the model takes every call to succeed. In the source the per-line `catch` swallows the failure after `splice(0)` has emptied the buffer, so those rows are lost.
- Promise wiring is not modelled: the unused `_reject`, rejections that are never propagated, and `resolve` as `onComplete`.
- The `db.mjs`, `notifications.mjs` and `xlsx.mjs` modules are not part of this model. Their calls are log entries. The sheets the XLSX producer emits are given values with rows of any type and a configuration of the JSONL shape.
- `src/index.mjs` (CLI parsing, environment checks, database set-up, exit codes) and `tests/jsonl.test.mjs` are not part of this model.
- DbLog.InsertInBatches: requires a positive batch size unless there are no rows. With a batch size that is not positive the loop never ends on a non-empty batch; a fractional batch size is not modelled.
- HandleJsonl.ImportWritesEveryRecord: requires a positive batch size unless the file has no record, for the same reason.
