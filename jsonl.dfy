/** The single-pass sequencer of lib/jsonl.mjs: each non-blank line is parsed into
    a record, counted against its group ("sheet"), transformed into a row under the
    current column configuration and buffered; the buffer is handed to the caller's
    callback as an event when the group changes, when it holds 50,000 rows, and
    once more at the end of the input. */
module Jsonl {
  import opened JsValues
  import opened TableConfigJsonl

  // ---------------------------------------------------------------------------
  // Row transform

  /** One entry of a transformed row. */
  datatype Cell =
    | Pass(v: Value)       // the property value, unchanged (None: undefined)
    | NumberOf(v: Value)   // `Number(val)`; the JavaScript coercion is left symbolic
    | Date(t: int)         // a valid `moment.tz(...)` converted with `toDate()`
    | Null                 // a timestamp value that did not parse

  type Row = seq<Cell>

  /** The collaborators the sequencer calls and this model does not interpret:
      the override document, JSON.parse, the moment.tz parse in the configured time
      zone (None when the result is invalid or it throws) and Number::toString. */
  datatype Context = Context(
    overrides: Overrides,
    parse: string -> Option<Record>,
    parseTime: Json -> Option<int>,
    numberText: real -> string)

  /** The value one column takes from one record. */
  function TransformCell(col: ColumnConfig, rec: Record, parseTime: Json -> Option<int>): (c: Cell)
    ensures var v := Get(rec, col.header);
      && (c.Null? <==> col.fieldType == "timestamp" && Truthy(v) && parseTime(v.value).None?)
      && (c.Date? <==> col.fieldType == "timestamp" && Truthy(v) && parseTime(v.value).Some?)
      && (c.Date? ==> c.t == parseTime(v.value).value)
      && (c.NumberOf? <==> col.fieldType == "number" && v != Some(JNull))
      && (c.NumberOf? || c.Pass? ==> c.v == v)
  {
    var v := Get(rec, col.header);
    if col.fieldType == "timestamp" && Truthy(v) then
      match parseTime(v.value)
      case Some(t) => Date(t)
      case None => Null
    else if col.fieldType == "number" && v != Some(JNull) then
      NumberOf(v)
    else
      Pass(v)
  }

  /** `header.map(col => …)`: one entry per configuration, skipped ones included. */
  function TransformRow(header: seq<ColumnConfig>, rec: Record, parseTime: Json -> Option<int>): (r: Row)
    ensures |r| == |header|
    ensures forall k :: 0 <= k < |header| ==> r[k] == TransformCell(header[k], rec, parseTime)
  {
    seq(|header|, k requires 0 <= k < |header| => TransformCell(header[k], rec, parseTime))
  }

  /** A missing value in a timestamp column is passed through as `undefined`, not
      turned into null, and nothing is parsed. */
  lemma MissingTimestampPassesThrough(col: ColumnConfig, rec: Record, parseTime: Json -> Option<int>)
    requires col.fieldType == "timestamp" && col.header !in rec.fields
    ensures TransformCell(col, rec, parseTime) == Pass(None)
  {
  }

  // ---------------------------------------------------------------------------
  // Output columns

  /** `header.filter(c => !c.skip).map(c => c.sqlColumn)`. */
  function Columns(header: seq<ColumnConfig>): (r: seq<string>)
    ensures |r| <= |header|
    ensures forall i :: 0 <= i < |header| && !header[i].skip ==> header[i].sqlColumn in r
    ensures forall x :: x in r ==> exists i :: 0 <= i < |header| && !header[i].skip && header[i].sqlColumn == x
  {
    if header == [] then []
    else
      var last := header[|header| - 1];
      var r := Columns(header[..|header| - 1]) + (if last.skip then [] else [last.sqlColumn]);
      assert forall i :: 0 <= i < |header| - 1 ==> header[..|header| - 1][i] == header[i];
      r
  }

  /** The list keeps header order: a single configuration contributes its
      `sqlColumn` unless it is skipped, and the list of a concatenation is the
      concatenation of the lists. */
  lemma {:induction false} ColumnsAppend(a: seq<ColumnConfig>, b: seq<ColumnConfig>)
    ensures Columns(a + b) == Columns(a) + Columns(b)
    ensures |a| == 1 ==> Columns(a) == if a[0].skip then [] else [a[0].sqlColumn]
    decreases |b|
  {
    if |a| == 1 {
      assert a[..0] == [];
    }
    if b == [] {
      assert a + b == a;
    } else {
      var b' := b[..|b| - 1];
      assert (a + b)[..|a + b| - 1] == a + b';
      ColumnsAppend(a, b');
    }
  }

  predicate Distinct(s: seq<string>) {
    forall a, b :: 0 <= a < b < |s| ==> s[a] != s[b]
  }

  /** Columns are duplicate-free when the non-skipped names are pairwise distinct. */
  lemma {:induction false} ColumnsDistinct(header: seq<ColumnConfig>)
    requires forall i, j :: 0 <= i < j < |header| && !header[i].skip && !header[j].skip ==>
      header[i].sqlColumn != header[j].sqlColumn
    ensures Distinct(Columns(header))
  {
    if header != [] {
      var init := header[..|header| - 1];
      var last := header[|header| - 1];
      ColumnsDistinct(init);
      if !last.skip {
        forall x | x in Columns(init) ensures x != last.sqlColumn {
          var i :| 0 <= i < |init| && !init[i].skip && init[i].sqlColumn == x;
          assert header[i] == init[i];
        }
        var c := Columns(init);
        assert Columns(header) == c + [last.sqlColumn];
        forall a, b | 0 <= a < b < |c| + 1 ensures (c + [last.sqlColumn])[a] != (c + [last.sqlColumn])[b] {
          if b == |c| {
            assert c[a] in c;
          }
        }
      }
    }
  }

  /** The output columns of a derived configuration are distinct whenever no
      non-skipped base name is another one followed by `_` and digits. */
  lemma DerivedColumnsDistinct(headers: seq<string>, overrides: Overrides)
    requires NoSuffixClash(BaseConfigs(headers, overrides))
    ensures Distinct(Columns(TableConfigFor(headers, overrides)))
  {
    var base := BaseConfigs(headers, overrides);
    var r := TableConfigFor(headers, overrides);
    forall i, j | 0 <= i < j < |r| && !r[i].skip && !r[j].skip
      ensures r[i].sqlColumn != r[j].sqlColumn
    {
      ResolvedNamesDistinct(base, i, j);
    }
    ColumnsDistinct(r);
  }

  // ---------------------------------------------------------------------------
  // Events

  datatype EventKind = Create | Insert | Swap

  /** An event summary; every field may be absent. */
  datatype Summary = Summary(
    totalRows: Option<int>,
    processedRows: Option<int>,
    skippedRows: Option<int>,
    emptyRows: Option<int>,
    total: Option<int>)

  /** The object passed to the callback (its `elapsed` text is not modelled). */
  datatype Event = Event(
    kind: EventKind,
    columns: seq<string>,
    sheetName: Value,
    transformedData: seq<Row>,
    tableConfig: seq<ColumnConfig>,
    summary: Summary)

  /** The buffer size at which rows are handed on. */
  const BatchLimit: nat := 50000

  /** The event a flush emits. `totalRows` and `processedRows` read the buffer's
      length after `splice(0)` has emptied it, so they are always 0. */
  function Flush(kind: EventKind, header: seq<ColumnConfig>, sheet: Value, rows: seq<Row>, total: Option<int>): Event {
    Event(kind, Columns(header), sheet, rows, header, Summary(Some(0), Some(0), Some(0), Some(0), total))
  }

  /** The shape every emitted event has. */
  predicate WellFormed(e: Event) {
    && e.columns == Columns(e.tableConfig)
    && e.summary.totalRows == Some(0) && e.summary.processedRows == Some(0)
    && e.summary.skippedRows == Some(0) && e.summary.emptyRows == Some(0)
    && |e.transformedData| <= BatchLimit
    && (e.kind == Swap ==> e.summary.total == None)
  }

  /** The rows of all events, in emission order. */
  function Emitted(events: seq<Event>): seq<Row> {
    if events == [] then []
    else Emitted(events[..|events| - 1]) + events[|events| - 1].transformedData
  }

  lemma EmittedAppend(events: seq<Event>, e: Event)
    ensures Emitted(events + [e]) == Emitted(events) + e.transformedData
  {
    assert (events + [e])[..|events|] == events;
  }

  // ---------------------------------------------------------------------------
  // Sequencer state

  /** A record that was accepted, with the configuration it was transformed under. */
  datatype Arrival = Arrival(record: Record, header: seq<ColumnConfig>)

  /** The closure's variables (`header`, `currentSheet`, `transformedData`,
      `noOfRows`), the events handed to the callback so far, and the log of
      accepted records. */
  datatype State = State(
    header: seq<ColumnConfig>,
    currentSheet: Value,
    transformedData: seq<Row>,
    noOfRows: map<string, nat>,
    events: seq<Event>,
    arrivals: seq<Arrival>)

  const Initial := State([], Some(JStr("")), [], map[], [], [])

  function SheetOf(rec: Record): Value {
    Get(rec, SheetKey)
  }

  /** The property key `noOfRows[sheet]` uses: `String(sheet)`. */
  function Key(sheet: Value, ctx: Context): string {
    ToJsString(sheet, ctx.numberText)
  }

  /** `noOfRows[key]` read as a value that may be undefined. */
  function Total(counts: map<string, nat>, key: string): Option<int> {
    if key in counts then Some(counts[key]) else None
  }

  /** The count (lib/jsonl.mjs:28-33): count the record against its group and
      derive the configuration from it if there is none yet. */
  function CountRecord(st: State, rec: Record, ctx: Context): State {
    var k := Key(SheetOf(rec), ctx);
    st.(noOfRows := st.noOfRows[k := Lookup(st.noOfRows, k) + 1],
        header := HeaderBefore(st, rec, ctx))
  }

  /** The group check (lib/jsonl.mjs:34-53): on a group change the buffer is
      handed to a swap event and the configuration is derived again. */
  function ChangeCheck(s: State, rec: Record, ctx: Context): State {
    if SheetChanges(s, rec, ctx) then
      s.(events := s.events + [Flush(Swap, s.header, s.currentSheet, s.transformedData, None)],
         transformedData := [],
         header := TableConfigFor(rec.keys, ctx.overrides))
    else s
  }

  function GroupCheck(st: State, rec: Record, ctx: Context): State {
    ChangeCheck(CountRecord(st, rec, ctx), rec, ctx)
  }

  /** The group-change test, on the counts that include the arriving record: the
      record's group is not the previous one, and the previous one has been counted. */
  predicate SheetChanges(s: State, rec: Record, ctx: Context) {
    !StrictEquals(SheetOf(rec), s.currentSheet) && Lookup(s.noOfRows, Key(s.currentSheet, ctx)) > 0
  }

  /** The label of a size flush. */
  function SizeKind(s: State, rec: Record, ctx: Context): EventKind {
    if !StrictEquals(SheetOf(rec), s.currentSheet) || Lookup(s.noOfRows, Key(SheetOf(rec), ctx)) <= BatchLimit + 1
    then Create else Insert
  }

  /** The size check (lib/jsonl.mjs:55-75): a full buffer is handed to a `create`
      or `insert` event and the configuration is derived again. */
  function SizeCheck(s: State, rec: Record, ctx: Context): State {
    if |s.transformedData| == BatchLimit then
      s.(events := s.events + [Flush(SizeKind(s, rec, ctx), s.header, s.currentSheet, s.transformedData,
                                     Total(s.noOfRows, Key(s.currentSheet, ctx)))],
         transformedData := [],
         header := TableConfigFor(rec.keys, ctx.overrides))
    else s
  }

  /** The push (lib/jsonl.mjs:76-92): transform the record under the current
      configuration, buffer the row and make the record's group current. */
  function Push(s: State, rec: Record, ctx: Context): State {
    s.(transformedData := s.transformedData + [TransformRow(s.header, rec, ctx.parseTime)],
       currentSheet := SheetOf(rec),
       arrivals := s.arrivals + [Arrival(rec, s.header)])
  }

  /** The closure body for a line that parsed into `rec`. */
  function Accept(st: State, rec: Record, ctx: Context): State {
    Push(SizeCheck(GroupCheck(st, rec, ctx), rec, ctx), rec, ctx)
  }

  /** `header` once it is derived from the first record. */
  function HeaderBefore(st: State, rec: Record, ctx: Context): seq<ColumnConfig> {
    if |st.header| == 0 then TableConfigFor(rec.keys, ctx.overrides) else st.header
  }

  /** The closure for one line: blank lines and lines JSON.parse rejects leave the
      state as it was. */
  function Step(st: State, line: string, ctx: Context): (r: State)
    ensures IsBlank(line) || ctx.parse(line).None? ==> r == st
  {
    if IsBlank(line) then st
    else match ctx.parse(line)
      case None => st
      case Some(rec) => Accept(st, rec, ctx)
  }

  /** The state after the given lines, in order. */
  function Run(lines: seq<string>, ctx: Context): State {
    if lines == [] then Initial
    else Step(Run(lines[..|lines| - 1], ctx), lines[|lines| - 1], ctx)
  }

  /** After the last line: one more swap event with whatever is buffered. */
  function Finish(st: State): (r: State)
    ensures |r.events| == |st.events| + 1 && r.events[..|st.events|] == st.events
    ensures r.events[|st.events|] == Flush(Swap, st.header, st.currentSheet, st.transformedData, None)
    ensures r.transformedData == []
  {
    st.(events := st.events + [Flush(Swap, st.header, st.currentSheet, st.transformedData, None)],
        transformedData := [])
  }

  // ---------------------------------------------------------------------------
  // Specification of the whole pass

  /** The records of the lines that are neither blank nor rejected by JSON.parse. */
  function Records(lines: seq<string>, ctx: Context): seq<Record> {
    if lines == [] then []
    else
      var last := lines[|lines| - 1];
      Records(lines[..|lines| - 1], ctx)
        + (if !IsBlank(last) && ctx.parse(last).Some? then [ctx.parse(last).value] else [])
  }

  /** The records of the arrivals, one each, in order. */
  function RecordsOf(arrivals: seq<Arrival>): (r: seq<Record>)
    ensures |r| == |arrivals|
    ensures forall i :: 0 <= i < |r| ==> r[i] == arrivals[i].record
  {
    if arrivals == [] then []
    else RecordsOf(arrivals[..|arrivals| - 1]) + [arrivals[|arrivals| - 1].record]
  }

  /** Each accepted record transformed under the configuration in force when it arrived. */
  function RowsOf(arrivals: seq<Arrival>, parseTime: Json -> Option<int>): seq<Row> {
    if arrivals == [] then []
    else
      var a := arrivals[|arrivals| - 1];
      RowsOf(arrivals[..|arrivals| - 1], parseTime) + [TransformRow(a.header, a.record, parseTime)]
  }

  /** How many of the records belong to the group whose key is `k`. */
  function SheetCount(records: seq<Record>, k: string, ctx: Context): nat {
    if records == [] then 0
    else
      SheetCount(records[..|records| - 1], k, ctx)
        + (if Key(SheetOf(records[|records| - 1]), ctx) == k then 1 else 0)
  }

  /** Rows are conserved and the buffer and events keep their bounds and shape. */
  ghost predicate Flow(st: State, ctx: Context) {
    && |st.transformedData| <= BatchLimit
    && Emitted(st.events) + st.transformedData == RowsOf(st.arrivals, ctx.parseTime)
    && (forall e :: e in st.events ==> WellFormed(e))
  }

  /** `noOfRows` counts the given records per group key. */
  ghost predicate Counts(st: State, records: seq<Record>, ctx: Context) {
    forall k :: Lookup(st.noOfRows, k) == SheetCount(records, k, ctx)
  }

  /** What holds between any two lines. */
  ghost predicate Inv(st: State, ctx: Context) {
    && Flow(st, ctx)
    && (|st.transformedData| > 0 ==> Lookup(st.noOfRows, Key(st.currentSheet, ctx)) > 0)
    && Counts(st, RecordsOf(st.arrivals), ctx)
  }

  lemma InitialInv(ctx: Context)
    ensures Inv(Initial, ctx)
  {
  }

  lemma {:induction false} StepInv(st: State, line: string, ctx: Context)
    requires Inv(st, ctx)
    ensures Inv(Step(st, line, ctx), ctx)
    ensures RecordsOf(Step(st, line, ctx).arrivals) ==
      RecordsOf(st.arrivals) + (if !IsBlank(line) && ctx.parse(line).Some? then [ctx.parse(line).value] else [])
  {
    if !IsBlank(line) && ctx.parse(line).Some? {
      var rec := ctx.parse(line).value;
      AcceptInv(st, rec, ctx);
    }
  }

  lemma {:induction false} GroupCheckFlow(st: State, rec: Record, ctx: Context)
    requires Flow(st, ctx)
    ensures var s := GroupCheck(st, rec, ctx);
      && Flow(s, ctx) && s.arrivals == st.arrivals && s.currentSheet == st.currentSheet
      && |s.transformedData| <= |st.transformedData|
  {
    var s := CountRecord(st, rec, ctx);
    if SheetChanges(s, rec, ctx) {
      EmittedAppend(s.events, Flush(Swap, s.header, s.currentSheet, s.transformedData, None));
    }
  }

  lemma {:induction false} SizeCheckFlow(s: State, rec: Record, ctx: Context)
    requires Flow(s, ctx)
    ensures var r := SizeCheck(s, rec, ctx);
      && Flow(r, ctx) && r.arrivals == s.arrivals && r.noOfRows == s.noOfRows
      && |r.transformedData| < BatchLimit
  {
    if |s.transformedData| == BatchLimit {
      EmittedAppend(s.events, Flush(SizeKind(s, rec, ctx), s.header, s.currentSheet, s.transformedData,
                                    Total(s.noOfRows, Key(s.currentSheet, ctx))));
    }
  }

  lemma {:induction false} PushFlow(s: State, rec: Record, ctx: Context)
    requires Flow(s, ctx) && |s.transformedData| < BatchLimit
    ensures var r := Push(s, rec, ctx);
      && Flow(r, ctx)
      && RecordsOf(r.arrivals) == RecordsOf(s.arrivals) + [rec]
  {
    var arrivals' := s.arrivals + [Arrival(rec, s.header)];
    assert arrivals'[..|arrivals'| - 1] == s.arrivals;
  }

  lemma {:induction false} SheetCountAppend(records: seq<Record>, rec: Record, k: string, ctx: Context)
    ensures SheetCount(records + [rec], k, ctx) ==
      SheetCount(records, k, ctx) + (if Key(SheetOf(rec), ctx) == k then 1 else 0)
  {
    assert (records + [rec])[..|records|] == records;
  }

  lemma {:induction false} AcceptInv(st: State, rec: Record, ctx: Context)
    requires Inv(st, ctx)
    ensures Inv(Accept(st, rec, ctx), ctx)
    ensures RecordsOf(Accept(st, rec, ctx).arrivals) == RecordsOf(st.arrivals) + [rec]
  {
    var s1 := GroupCheck(st, rec, ctx);
    var s2 := SizeCheck(s1, rec, ctx);
    var r := Push(s2, rec, ctx);
    GroupCheckFlow(st, rec, ctx);
    SizeCheckFlow(s1, rec, ctx);
    PushFlow(s2, rec, ctx);
    var key := Key(SheetOf(rec), ctx);
    assert s1.noOfRows == st.noOfRows[key := Lookup(st.noOfRows, key) + 1];
    forall k ensures Lookup(r.noOfRows, k) == SheetCount(RecordsOf(r.arrivals), k, ctx) {
      SheetCountAppend(RecordsOf(st.arrivals), rec, k, ctx);
    }
  }

  /** The invariant holds after every prefix, and the accepted records are exactly
      the parsed ones, in input order. */
  lemma {:induction false} RunInv(lines: seq<string>, ctx: Context)
    ensures Inv(Run(lines, ctx), ctx)
    ensures RecordsOf(Run(lines, ctx).arrivals) == Records(lines, ctx)
  {
    if lines == [] {
      InitialInv(ctx);
    } else {
      RunInv(lines[..|lines| - 1], ctx);
      StepInv(Run(lines[..|lines| - 1], ctx), lines[|lines| - 1], ctx);
    }
  }

  /** Conservation: the rows of all events, final swap included, are the accepted
      records transformed in input order; nothing is left in the buffer, and every
      event carries at most 50,000 rows and the non-skipped columns of its
      configuration. */
  lemma Conservation(lines: seq<string>, ctx: Context)
    ensures var st := Run(lines, ctx);
      && Emitted(Finish(st).events) == RowsOf(st.arrivals, ctx.parseTime)
      && RecordsOf(st.arrivals) == Records(lines, ctx)
      && forall e :: e in Finish(st).events ==> WellFormed(e)
  {
    var st := Run(lines, ctx);
    RunInv(lines, ctx);
    EmittedAppend(st.events, Flush(Swap, st.header, st.currentSheet, st.transformedData, None));
  }

  /** `noOfRows` counts every accepted record of a group, over all of its runs. */
  lemma CountsAreCumulative(lines: seq<string>, ctx: Context, k: string)
    ensures Lookup(Run(lines, ctx).noOfRows, k) == SheetCount(Records(lines, ctx), k, ctx)
  {
    RunInv(lines, ctx);
  }

  lemma StrictEqualsSame(a: Value, b: Value)
    requires StrictEquals(a, b)
    ensures a == b
  {
  }

  /** A record arriving at a full buffer causes exactly one event carrying exactly the
      buffered rows, before the record is pushed: a swap of the previous group if
      the group changed, otherwise a `create` while the group's count is at most
      50,001 and an `insert` after, whose `total` counts the arriving record. The
      configuration is then derived again from the arriving record. */
  lemma {:induction false} FullBufferFlushes(st: State, rec: Record, ctx: Context)
    requires Inv(st, ctx)
    requires |st.transformedData| == BatchLimit
    ensures var r := Accept(st, rec, ctx);
      var n := Lookup(st.noOfRows, Key(st.currentSheet, ctx)) + 1;
      var derived := TableConfigFor(rec.keys, ctx.overrides);
      && r.events == st.events + [
           if StrictEquals(SheetOf(rec), st.currentSheet)
           then Flush(if n <= BatchLimit + 1 then Create else Insert, HeaderBefore(st, rec, ctx),
                      st.currentSheet, st.transformedData, Some(n))
           else Flush(Swap, HeaderBefore(st, rec, ctx), st.currentSheet, st.transformedData, None)]
      && r.header == derived
      && r.transformedData == [TransformRow(derived, rec, ctx.parseTime)]
  {
    var key := Key(SheetOf(rec), ctx);
    var s1 := GroupCheck(st, rec, ctx);
    if StrictEquals(SheetOf(rec), st.currentSheet) {
      StrictEqualsSame(SheetOf(rec), st.currentSheet);
      assert s1.transformedData == st.transformedData;
    } else {
      assert Lookup(st.noOfRows, Key(st.currentSheet, ctx)) > 0;
      assert s1.transformedData == [];
    }
  }

  /** A group change hands the previous group's buffered rows, under the previous
      configuration, to a swap event before the new record is transformed; the
      new record is transformed under a configuration derived from its own keys. */
  lemma SheetChangeSwaps(st: State, rec: Record, ctx: Context)
    requires !StrictEquals(SheetOf(rec), st.currentSheet)
    requires Lookup(CountRecord(st, rec, ctx).noOfRows, Key(st.currentSheet, ctx)) > 0
    ensures var r := Accept(st, rec, ctx);
      var derived := TableConfigFor(rec.keys, ctx.overrides);
      && r.events == st.events + [Flush(Swap, HeaderBefore(st, rec, ctx), st.currentSheet, st.transformedData, None)]
      && r.header == derived
      && r.transformedData == [TransformRow(derived, rec, ctx.parseTime)]
      && r.currentSheet == SheetOf(rec)
  {
  }

  /** The group test reads the count after the arriving record is counted, and
      `noOfRows` is keyed by `String(sheet)`: a first record whose `sheet` is `[]`
      has the key "" of the initial group `''` without being `===` to it, so it
      emits a swap of the empty buffer before its own row is pushed. */
  lemma EmptyArraySheetSwapsFirst(rec: Record, ctx: Context)
    requires SheetKey in rec.fields && rec.fields[SheetKey] == JArray([])
    ensures Accept(Initial, rec, ctx).events ==
      [Flush(Swap, TableConfigFor(rec.keys, ctx.overrides), Some(JStr("")), [], None)]
  {
    assert Key(SheetOf(rec), ctx) == "" == Key(Initial.currentSheet, ctx);
  }

  /** Within a group and below the limit a record emits nothing and its row is
      appended to the buffer. */
  lemma QuietStep(st: State, rec: Record, ctx: Context)
    requires StrictEquals(SheetOf(rec), st.currentSheet) && |st.transformedData| < BatchLimit
    ensures var r := Accept(st, rec, ctx);
      && r.events == st.events
      && r.header == HeaderBefore(st, rec, ctx)
      && r.transformedData == st.transformedData + [TransformRow(HeaderBefore(st, rec, ctx), rec, ctx.parseTime)]
  {
  }

  // ---------------------------------------------------------------------------
  // The pass itself

  /** The count of the closure (lib/jsonl.mjs:28-33). */
  method Count(json: Record, ctx: Context,
               header0: seq<ColumnConfig>, currentSheet: Value, transformedData: seq<Row>,
               noOfRows0: map<string, nat>, events: seq<Event>, ghost arrivals: seq<Arrival>)
    returns (header: seq<ColumnConfig>, noOfRows: map<string, nat>)
    ensures State(header, currentSheet, transformedData, noOfRows, events, arrivals)
         == CountRecord(State(header0, currentSheet, transformedData, noOfRows0, events, arrivals), json, ctx)
  {
    var currentSheetName := SheetOf(json);
    var key := Key(currentSheetName, ctx);
    noOfRows := noOfRows0[key := Lookup(noOfRows0, key) + 1];
    header := header0;
    if |header| == 0 {
      header := GetTableConfig(json.keys, ctx.overrides);
    }
  }

  /** The group check of the closure (lib/jsonl.mjs:34-53). */
  method CheckGroup(json: Record, ctx: Context,
                    header0: seq<ColumnConfig>, currentSheet: Value, transformedData0: seq<Row>,
                    noOfRows: map<string, nat>, events0: seq<Event>, ghost arrivals: seq<Arrival>)
    returns (header: seq<ColumnConfig>, transformedData: seq<Row>, events: seq<Event>)
    ensures State(header, currentSheet, transformedData, noOfRows, events, arrivals)
         == ChangeCheck(State(header0, currentSheet, transformedData0, noOfRows, events0, arrivals), json, ctx)
  {
    header, transformedData, events := header0, transformedData0, events0;
    if !StrictEquals(SheetOf(json), currentSheet) && Lookup(noOfRows, Key(currentSheet, ctx)) > 0 {
      events := events + [Flush(Swap, header, currentSheet, transformedData, None)];
      transformedData := [];
      header := GetTableConfig(json.keys, ctx.overrides);
    }
  }

  /** The size check of the closure (lib/jsonl.mjs:55-75). */
  method CheckSize(json: Record, ctx: Context,
                   header0: seq<ColumnConfig>, currentSheet: Value, transformedData0: seq<Row>,
                   noOfRows: map<string, nat>, events0: seq<Event>, ghost arrivals: seq<Arrival>)
    returns (header: seq<ColumnConfig>, transformedData: seq<Row>, events: seq<Event>)
    ensures State(header, currentSheet, transformedData, noOfRows, events, arrivals)
         == SizeCheck(State(header0, currentSheet, transformedData0, noOfRows, events0, arrivals), json, ctx)
  {
    header, transformedData, events := header0, transformedData0, events0;
    if |transformedData| == BatchLimit {
      var currentSheetName := SheetOf(json);
      var kind := if !StrictEquals(currentSheetName, currentSheet) || Lookup(noOfRows, Key(currentSheetName, ctx)) <= BatchLimit + 1
                  then Create else Insert;
      events := events + [Flush(kind, header, currentSheet, transformedData, Total(noOfRows, Key(currentSheet, ctx)))];
      transformedData := [];
      header := GetTableConfig(json.keys, ctx.overrides);
    }
  }

  /** The closure body for a line that JSON.parse turned into `json`
      (lib/jsonl.mjs:28-92), over the closure's variables. */
  method ProcessRecord(json: Record, ctx: Context,
                       header0: seq<ColumnConfig>, currentSheet0: Value, transformedData0: seq<Row>,
                       noOfRows0: map<string, nat>, events0: seq<Event>, ghost arrivals0: seq<Arrival>)
    returns (header: seq<ColumnConfig>, currentSheet: Value, transformedData: seq<Row>,
             noOfRows: map<string, nat>, events: seq<Event>, ghost arrivals: seq<Arrival>)
    ensures State(header, currentSheet, transformedData, noOfRows, events, arrivals)
         == Accept(State(header0, currentSheet0, transformedData0, noOfRows0, events0, arrivals0), json, ctx)
  {
    currentSheet, arrivals := currentSheet0, arrivals0;
    header, noOfRows :=
      Count(json, ctx, header0, currentSheet, transformedData0, noOfRows0, events0, arrivals);
    header, transformedData, events :=
      CheckGroup(json, ctx, header, currentSheet, transformedData0, noOfRows, events0, arrivals);
    header, transformedData, events :=
      CheckSize(json, ctx, header, currentSheet, transformedData, noOfRows, events, arrivals);
    var transformedRow := TransformRow(header, json, ctx.parseTime);
    transformedData := transformedData + [transformedRow];
    arrivals := arrivals + [Arrival(json, header)];
    currentSheet := SheetOf(json);
  }

  /** `parseAndTransformJSONL` over the lines of the file, with the callback taken
      to succeed: returns the events handed to the callback, in order, and for each
      call of `onComplete` the number of events handed on before it. */
  method ParseAndTransformJsonl(lines: seq<string>, ctx: Context) returns (events: seq<Event>, completions: seq<nat>)
    ensures events == Finish(Run(lines, ctx)).events
    ensures |events| >= 1 && events[|events| - 1].kind == Swap
    ensures Emitted(events) == RowsOf(Run(lines, ctx).arrivals, ctx.parseTime)
    ensures RecordsOf(Run(lines, ctx).arrivals) == Records(lines, ctx)
    ensures forall e :: e in events ==> WellFormed(e)
    ensures completions == [|events|]
  {
    var header: seq<ColumnConfig> := [];
    var currentSheet: Value := Some(JStr(""));
    var transformedData: seq<Row> := [];
    var noOfRows: map<string, nat> := map[];
    events := [];
    ghost var arrivals: seq<Arrival> := [];

    var lineNumber := 0;
    while lineNumber < |lines|
      invariant 0 <= lineNumber <= |lines|
      invariant State(header, currentSheet, transformedData, noOfRows, events, arrivals) == Run(lines[..lineNumber], ctx)
    {
      var line := lines[lineNumber];
      assert lines[..lineNumber + 1][..lineNumber] == lines[..lineNumber];
      if !IsBlank(line) {
        var parsed := ctx.parse(line);
        if parsed.Some? {
          header, currentSheet, transformedData, noOfRows, events, arrivals :=
            ProcessRecord(parsed.value, ctx, header, currentSheet, transformedData, noOfRows, events, arrivals);
        }
      }
      lineNumber := lineNumber + 1;
    }
    assert lines[..|lines|] == lines;

    events := events + [Flush(Swap, header, currentSheet, transformedData, None)];
    transformedData := [];
    completions := [|events|];

    Conservation(lines, ctx);
  }
}
