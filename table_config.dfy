/** Schema derivation for line-delimited JSON input (lib/getTableConfigJSONL.mjs):
    from one record's keys and an override document to an ordered column
    configuration, with duplicate output names numbered `_1 … _k`. */
module TableConfigJsonl {
  import opened JsValues

  /** One output column. `fieldType` is kept as the source's string: only
      "number" and "timestamp" are treated specially downstream. */
  datatype ColumnConfig = ColumnConfig(
    header: string,
    sqlColumn: string,
    fieldType: string,
    primary: bool,
    notNull: bool,
    skip: bool,
    needIndex: bool,
    isHyperlink: bool)

  /** The entries one override object may carry; each is optional. */
  datatype Override = Override(
    header: Option<string>,
    sqlColumn: Option<string>,
    fieldType: Option<string>,
    primary: Option<bool>,
    notNull: Option<bool>,
    skip: Option<bool>,
    needIndex: Option<bool>,
    isHyperlink: Option<bool>)

  /** The override document: field name to override object. */
  type Overrides = map<string, Override>

  /** `{}`: the override used for a field the document does not mention. */
  const NoOverride := Override(None, None, None, None, None, None, None, None)

  /** The structural key naming the group; it never becomes a column. */
  const SheetKey := "sheet"

  /** What the configuration file path leads to, once the file system is asked. */
  datatype ConfigFile = NoFile | Unparsable | Parsed(overrides: Overrides)

  /** `getTableConfigOverrides`: a falsy path or a missing file gives `{}`; a file
      JSON.parse rejects is an error. `file` is what reading the path yields
      (None when the file does not exist). */
  function TableConfigOverrides(path: Option<string>, file: ConfigFile): (r: Option<Overrides>)
    ensures path == None || path == Some("") || file == NoFile ==> r == Some(map[])
    ensures r == None <==> path != None && path != Some("") && file == Unparsable
    ensures file.Parsed? && path != None && path != Some("") ==> r == Some(file.overrides)
  {
    if path == None || path == Some("") then Some(map[])
    else match file
      case NoFile => Some(map[])
      case Unparsable => None
      case Parsed(o) => Some(o)
  }

  function Pick<T>(o: Option<T>, default: T): T {
    match o
    case Some(v) => v
    case None => default
  }

  /** The defaults of a column named `name`. */
  function DefaultConfig(name: string): ColumnConfig {
    ColumnConfig(name, name, "string", false, false, false, false, true)
  }

  /** `{ ...defaults, ...colOverrides }`: every key the override carries replaces
      the default of that key; every other key keeps its default. */
  function ApplyOverride(c: ColumnConfig, o: Override): (r: ColumnConfig)
    ensures o == NoOverride ==> r == c
    ensures o.header.None? ==> r.header == c.header
    ensures o.sqlColumn.None? ==> r.sqlColumn == c.sqlColumn
    ensures o.fieldType.None? ==> r.fieldType == c.fieldType
    ensures o.skip.None? ==> r.skip == c.skip
    ensures o.header.Some? ==> r.header == o.header.value
    ensures o.sqlColumn.Some? ==> r.sqlColumn == o.sqlColumn.value
    ensures o.fieldType.Some? ==> r.fieldType == o.fieldType.value
    ensures o.skip.Some? ==> r.skip == o.skip.value
    ensures r.primary == Pick(o.primary, c.primary) && r.notNull == Pick(o.notNull, c.notNull)
    ensures r.needIndex == Pick(o.needIndex, c.needIndex) && r.isHyperlink == Pick(o.isHyperlink, c.isHyperlink)
  {
    ColumnConfig(
      Pick(o.header, c.header),
      Pick(o.sqlColumn, c.sqlColumn),
      Pick(o.fieldType, c.fieldType),
      Pick(o.primary, c.primary),
      Pick(o.notNull, c.notNull),
      Pick(o.skip, c.skip),
      Pick(o.needIndex, c.needIndex),
      Pick(o.isHyperlink, c.isHyperlink))
  }

  /** `tableConfigOverrides?.[header] ?? {}`. */
  function OverrideFor(overrides: Overrides, name: string): Override {
    if name in overrides then overrides[name] else NoOverride
  }

  /** The configuration of one field before duplicate resolution. */
  function BaseConfig(name: string, overrides: Overrides): (c: ColumnConfig)
    ensures name !in overrides ==>
      c == ColumnConfig(name, name, "string", false, false, false, false, true)
    ensures c.header == Pick(OverrideFor(overrides, name).header, name)
    ensures c.sqlColumn == Pick(OverrideFor(overrides, name).sqlColumn, name)
  {
    ApplyOverride(DefaultConfig(name), OverrideFor(overrides, name))
  }

  /** `headers.filter(a => a !== 'sheet')`. */
  function DataHeaders(headers: seq<string>): (r: seq<string>)
    ensures SheetKey !in r
    ensures forall h :: h in r <==> h in headers && h != SheetKey
    ensures SheetKey !in headers ==> r == headers
  {
    if headers == [] then []
    else
      var last := headers[|headers| - 1];
      assert headers == headers[..|headers| - 1] + [last];
      DataHeaders(headers[..|headers| - 1]) + (if last == SheetKey then [] else [last])
  }

  /** The filter keeps input order: it distributes over concatenation. */
  lemma {:induction false} DataHeadersAppend(a: seq<string>, b: seq<string>)
    ensures DataHeaders(a + b) == DataHeaders(a) + DataHeaders(b)
    decreases |b|
  {
    if b == [] {
      assert a + b == a;
    } else {
      var b' := b[..|b| - 1];
      assert (a + b)[..|a + b| - 1] == a + b';
      DataHeadersAppend(a, b');
    }
  }

  /** The base configurations: one per data header, in order. */
  function BaseConfigs(headers: seq<string>, overrides: Overrides): (r: seq<ColumnConfig>)
    ensures |r| == |DataHeaders(headers)|
    ensures forall i :: 0 <= i < |r| ==> r[i] == BaseConfig(DataHeaders(headers)[i], overrides)
  {
    var names := DataHeaders(headers);
    seq(|names|, i requires 0 <= i < |names| => BaseConfig(names[i], overrides))
  }

  /** `columnNameCounts[name]`: how many non-skipped configurations are named `name`. */
  function CountNonSkip(cfgs: seq<ColumnConfig>, name: string): nat {
    if cfgs == [] then 0
    else
      var last := cfgs[|cfgs| - 1];
      CountNonSkip(cfgs[..|cfgs| - 1], name) + (if !last.skip && last.sqlColumn == name then 1 else 0)
  }

  /** `${baseName}_${k}`. */
  function Suffixed(base: string, k: nat): string {
    base + "_" + NatToString(k)
  }

  /** Configuration `i` after resolution: a non-skipped column whose name is shared
      by another non-skipped column takes the suffix of its rank among them. */
  function ResolveAt(base: seq<ColumnConfig>, i: nat): ColumnConfig
    requires i < |base|
  {
    var c := base[i];
    if !c.skip && CountNonSkip(base, c.sqlColumn) > 1 then
      c.(sqlColumn := Suffixed(c.sqlColumn, CountNonSkip(base[..i + 1], c.sqlColumn)))
    else c
  }

  function Resolve(base: seq<ColumnConfig>): (r: seq<ColumnConfig>)
    ensures |r| == |base|
    ensures forall i :: 0 <= i < |base| ==> r[i] == base[i].(sqlColumn := r[i].sqlColumn)
    ensures forall i ::
      (0 <= i < |base| && (base[i].skip || CountNonSkip(base, base[i].sqlColumn) <= 1)) ==> r[i] == base[i]
  {
    seq(|base|, i requires 0 <= i < |base| => ResolveAt(base, i))
  }

  /** The configuration `getTableConfig` returns. */
  function TableConfigFor(headers: seq<string>, overrides: Overrides): seq<ColumnConfig> {
    Resolve(BaseConfigs(headers, overrides))
  }

  /** `getTableConfig(headers, tableConfigFile)`, with the file's overrides given.
      The base configurations are built as values; the two passes of the source
      then count names and overwrite `sqlColumn` in place. */
  method GetTableConfig(headers: seq<string>, overrides: Overrides) returns (config: seq<ColumnConfig>)
    ensures config == TableConfigFor(headers, overrides)
    ensures |config| == |DataHeaders(headers)|
  {
    var base := BaseConfigs(headers, overrides);
    var table := new ColumnConfig[|base|](i requires 0 <= i < |base| => base[i]);
    assert table[..] == base;
    var columnNameCounts := CountColumnNames(table);
    NumberDuplicates(table, columnNameCounts);
    config := table[..];
  }

  /** The first pass: `columnNameCounts[name]` for every non-skipped name. */
  method CountColumnNames(table: array<ColumnConfig>) returns (counts: map<string, nat>)
    ensures forall name :: Lookup(counts, name) == CountNonSkip(table[..], name)
  {
    ghost var configs := table[..];
    counts := map[];
    var i := 0;
    while i < table.Length
      invariant 0 <= i <= table.Length == |configs|
      invariant forall name :: Lookup(counts, name) == CountNonSkip(configs[..i], name)
    {
      ghost var before := counts;
      if !table[i].skip {
        var baseName := table[i].sqlColumn;
        counts := counts[baseName := Lookup(counts, baseName) + 1];
      }
      forall name ensures Lookup(counts, name) == CountNonSkip(configs[..i + 1], name) {
        CountNonSkipStep(configs, i, name);
        assert Lookup(before, name) == CountNonSkip(configs[..i], name);
      }
      i := i + 1;
    }
    assert configs[..table.Length] == configs;
  }

  /** The second pass: every non-skipped column whose name is counted more than once
      gets `_` and its rank among the columns of that name. */
  method NumberDuplicates(table: array<ColumnConfig>, counts: map<string, nat>)
    requires forall name :: Lookup(counts, name) == CountNonSkip(table[..], name)
    modifies table
    ensures table[..] == Resolve(old(table[..]))
  {
    ghost var base := table[..];
    var seenColumns: map<string, nat> := map[];
    var i := 0;
    while i < table.Length
      invariant 0 <= i <= table.Length == |base|
      invariant forall j :: 0 <= j < i ==> table[j] == ResolveAt(base, j)
      invariant forall j :: i <= j < |base| ==> table[j] == base[j]
      invariant forall name ::
        Lookup(seenColumns, name) == (if CountNonSkip(base, name) > 1 then CountNonSkip(base[..i], name) else 0)
    {
      CountNonSkipStep(base, i, base[i].sqlColumn);
      forall name | name != base[i].sqlColumn
        ensures CountNonSkip(base[..i + 1], name) == CountNonSkip(base[..i], name)
      {
        CountNonSkipStep(base, i, name);
      }
      if !table[i].skip {
        var baseName := table[i].sqlColumn;
        if Lookup(counts, baseName) > 1 {
          seenColumns := seenColumns[baseName := Lookup(seenColumns, baseName) + 1];
          table[i] := table[i].(sqlColumn := Suffixed(baseName, seenColumns[baseName]));
        }
      }
      i := i + 1;
    }
    assert table[..] == Resolve(base);
  }

  /** `dict[key] || 0` for a counting dictionary. */
  function Lookup(m: map<string, nat>, key: string): nat {
    if key in m then m[key] else 0
  }

  // ---------------------------------------------------------------------------
  // Properties of the resolved configuration

  /** Counting one more configuration adds one exactly when it is a non-skipped `name`. */
  lemma {:induction false} CountNonSkipStep(s: seq<ColumnConfig>, k: nat, name: string)
    requires k < |s|
    ensures CountNonSkip(s[..k + 1], name) ==
      CountNonSkip(s[..k], name) + (if !s[k].skip && s[k].sqlColumn == name then 1 else 0)
  {
    assert s[..k + 1][..k] == s[..k];
  }

  /** Counting over a longer prefix never gives less. */
  lemma {:induction false} CountNonSkipMonotone(s: seq<ColumnConfig>, k: nat, m: nat, name: string)
    requires k <= m <= |s|
    ensures CountNonSkip(s[..k], name) <= CountNonSkip(s[..m], name)
    decreases m - k
  {
    if k < m {
      CountNonSkipStep(s, k, name);
      CountNonSkipMonotone(s, k + 1, m, name);
    }
  }

  /** The rank a non-skipped column receives is between 1 and the number of columns
      sharing its name, and later columns of that name receive larger ranks. */
  lemma {:induction false} RankBounds(s: seq<ColumnConfig>, i: nat, j: nat)
    requires i < j < |s|
    requires !s[i].skip && !s[j].skip && s[i].sqlColumn == s[j].sqlColumn
    ensures 1 <= CountNonSkip(s[..i + 1], s[i].sqlColumn)
    ensures CountNonSkip(s[..i + 1], s[i].sqlColumn) < CountNonSkip(s[..j + 1], s[j].sqlColumn)
    ensures CountNonSkip(s[..j + 1], s[j].sqlColumn) <= CountNonSkip(s, s[j].sqlColumn)
  {
    var name := s[i].sqlColumn;
    CountNonSkipStep(s, i, name);
    CountNonSkipStep(s, j, name);
    CountNonSkipMonotone(s, i + 1, j, name);
    CountNonSkipMonotone(s, j + 1, |s|, name);
    assert s[..|s|] == s;
  }

  /** `k` suffixed names in rank order: `name_1, …, name_k`. */
  function Numbered(name: string, k: nat): (r: seq<string>)
    ensures |r| == k
    ensures forall i :: 0 <= i < k ==> r[i] == Suffixed(name, i + 1)
  {
    if k == 0 then [] else Numbered(name, k - 1) + [Suffixed(name, k)]
  }

  /** The resolved names, in order, of the first `n` configurations whose
      unresolved non-skipped name is `name`. */
  function ResolvedNamesOf(base: seq<ColumnConfig>, n: nat, name: string): seq<string>
    requires n <= |base|
  {
    if n == 0 then []
    else
      ResolvedNamesOf(base, n - 1, name)
        + (if !base[n - 1].skip && base[n - 1].sqlColumn == name then [ResolveAt(base, n - 1).sqlColumn] else [])
  }

  lemma {:induction false} NumberedPrefix(base: seq<ColumnConfig>, n: nat, name: string)
    requires n <= |base|
    requires CountNonSkip(base, name) > 1
    ensures ResolvedNamesOf(base, n, name) == Numbered(name, CountNonSkip(base[..n], name))
  {
    if n > 0 {
      NumberedPrefix(base, n - 1, name);
      CountNonSkipStep(base, n - 1, name);
    }
  }

  /** When `k > 1` non-skipped columns share the name `name`, they are renamed
      `name_1, …, name_k` in their order, the first one included. */
  lemma {:induction false} DuplicatesNumberedInOrder(base: seq<ColumnConfig>, name: string)
    requires CountNonSkip(base, name) > 1
    ensures ResolvedNamesOf(base, |base|, name) == Numbered(name, CountNonSkip(base, name))
  {
    NumberedPrefix(base, |base|, name);
    assert base[..|base|] == base;
  }

  /** `name` has the shape `base_<digits>`. */
  predicate HasCounterSuffix(name: string, base: string) {
    |name| > |base| + 1 && name[..|base|] == base && name[|base|] == '_' && IsDigits(name[|base| + 1..])
  }

  /** No non-skipped name is another non-skipped name followed by `_` and digits. */
  predicate NoSuffixClash(base: seq<ColumnConfig>) {
    forall i, j :: 0 <= i < |base| && 0 <= j < |base| && !base[i].skip && !base[j].skip ==>
      !HasCounterSuffix(base[j].sqlColumn, base[i].sqlColumn)
  }

  /** In `base_k` the last '_' stands right after `base`, and the digits of `k` follow. */
  lemma {:induction false} SuffixedShape(base: string, k: nat)
    ensures var s := Suffixed(base, k);
      && |s| > |base| + 1 && s[..|base|] == base && s[|base|] == '_'
      && s[|base| + 1..] == NatToString(k)
      && forall p :: |base| < p < |s| ==> s[p] != '_'
  {
    var s, d := Suffixed(base, k), NatToString(k);
    forall p | |base| < p < |s| ensures s[p] != '_' {
      assert s[p] == d[p - |base| - 1];
    }
  }

  /** Two suffixed names are equal only when base and number are. */
  lemma {:induction false} SuffixedInjective(b1: string, k1: nat, b2: string, k2: nat)
    requires Suffixed(b1, k1) == Suffixed(b2, k2)
    ensures b1 == b2 && k1 == k2
  {
    SuffixedShape(b1, k1);
    SuffixedShape(b2, k2);
    assert |b1| == |b2|;
    NatToStringInjective(k1, k2);
  }

  /** Two distinct non-skipped columns with one name make its count at least two. */
  lemma {:induction false} SharedNameCountsTwice(s: seq<ColumnConfig>, i: nat, j: nat)
    requires i < j < |s|
    requires !s[i].skip && !s[j].skip && s[i].sqlColumn == s[j].sqlColumn
    ensures CountNonSkip(s, s[i].sqlColumn) >= 2
  {
    RankBounds(s, i, j);
  }

  /** Under `NoSuffixClash`, resolution leaves the non-skipped names pairwise distinct. */
  lemma {:induction false} ResolvedNamesDistinct(base: seq<ColumnConfig>, i: nat, j: nat)
    requires NoSuffixClash(base)
    requires i < j < |base| && !base[i].skip && !base[j].skip
    ensures Resolve(base)[i].sqlColumn != Resolve(base)[j].sqlColumn
  {
    var r := Resolve(base);
    var bi, bj := base[i].sqlColumn, base[j].sqlColumn;
    var si, sj := CountNonSkip(base, bi) > 1, CountNonSkip(base, bj) > 1;
    if si && sj {
      var ki, kj := CountNonSkip(base[..i + 1], bi), CountNonSkip(base[..j + 1], bj);
      if r[i].sqlColumn == r[j].sqlColumn {
        SuffixedInjective(bi, ki, bj, kj);
        RankBounds(base, i, j);
      }
    } else if !si && !sj {
      if bi == bj {
        SharedNameCountsTwice(base, i, j);
      }
    } else if si {
      var ki := CountNonSkip(base[..i + 1], bi);
      SuffixedShape(bi, ki);
      assert r[i].sqlColumn == Suffixed(bi, ki) && r[j].sqlColumn == bj;
      assert !HasCounterSuffix(bj, bi);
    } else {
      var kj := CountNonSkip(base[..j + 1], bj);
      SuffixedShape(bj, kj);
      assert r[j].sqlColumn == Suffixed(bj, kj) && r[i].sqlColumn == bi;
      assert !HasCounterSuffix(bi, bj);
    }
  }

  /** The override `{ sqlColumn: "a" }`. */
  const RenameToA := NoOverride.(sqlColumn := Some("a"))

  /** The resolution does not always keep names distinct: the keys `x`, `y`,
      `a_1`, with `x` and `y` both renamed `a` by the override document, resolve
      to `a_1`, `a_2`, `a_1`. */
  lemma DuplicateSuffixCollision()
    ensures var r := TableConfigFor(["x", "y", "a_1"], map["x" := RenameToA, "y" := RenameToA]);
      |r| == 3 && r[0].sqlColumn == "a_1" && r[1].sqlColumn == "a_2" && r[2].sqlColumn == "a_1"
  {
    var overrides := map["x" := RenameToA, "y" := RenameToA];
    var base := BaseConfigs(["x", "y", "a_1"], overrides);
    CollisionBase(overrides);
    var a := DefaultConfig("x").(sqlColumn := "a");
    var b := DefaultConfig("y").(sqlColumn := "a");
    var c := DefaultConfig("a_1");
    CollisionCounts(a, b, c);
    assert NatToString(1) == "1" && NatToString(2) == "2";
    assert ResolveAt(base, 0).sqlColumn == Suffixed("a", 1);
    assert ResolveAt(base, 1).sqlColumn == Suffixed("a", 2);
  }

  lemma CollisionBase(overrides: Overrides)
    requires overrides == map["x" := RenameToA, "y" := RenameToA]
    ensures BaseConfigs(["x", "y", "a_1"], overrides)
      == [DefaultConfig("x").(sqlColumn := "a"), DefaultConfig("y").(sqlColumn := "a"), DefaultConfig("a_1")]
  {
    assert DataHeaders(["x", "y", "a_1"]) == ["x", "y", "a_1"];
    assert OverrideFor(overrides, "x") == RenameToA && OverrideFor(overrides, "y") == RenameToA;
    assert OverrideFor(overrides, "a_1") == NoOverride;
  }

  lemma CollisionCounts(a: ColumnConfig, b: ColumnConfig, c: ColumnConfig)
    requires !a.skip && !b.skip && !c.skip && a.sqlColumn == "a" && b.sqlColumn == "a" && c.sqlColumn == "a_1"
    ensures var s := [a, b, c];
      && CountNonSkip(s, "a") == 2 && CountNonSkip(s, "a_1") == 1
      && CountNonSkip(s[..1], "a") == 1 && CountNonSkip(s[..2], "a") == 2
  {
    var s := [a, b, c];
    assert "a" != "a_1";
    assert [a][..0] == [] && [a, b][..1] == [a] && s[..2] == [a, b] && s[..1] == [a];
    assert CountNonSkip([a], "a") == 1 && CountNonSkip([a], "a_1") == 0;
    assert CountNonSkip([a, b], "a") == 2 && CountNonSkip([a, b], "a_1") == 0;
  }
}
