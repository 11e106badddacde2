/**
 * The data profiler (`DataSummary`): the reader chosen for a data file,
 * the row count, the numerical/categorical typing of each column and the
 * compact graph data of a categorical column (count, pie or bar).
 */
module DataSummary {
  import opened Wrappers
  import opened Strings
  import opened CustomCall

  // ---------------------------------------------------------------------------
  // get_data and size_info
  // ---------------------------------------------------------------------------

  /** The index of the last `c` in `s`, if any. */
  function LastIndex(s: string, c: char): (r: Option<nat>)
    ensures r.Some? ==> r.value < |s| && s[r.value] == c && forall j :: r.value < j < |s| ==> s[j] != c
    ensures r.None? ==> c !in s
  {
    if s == [] then None
    else if s[|s| - 1] == c then Some(|s| - 1)
    else LastIndex(s[..|s| - 1], c)
  }

  /** The last `c` in `s` is at `i`. */
  lemma {:induction false} LastIndexAt(s: string, c: char, i: nat)
    requires i < |s| && s[i] == c && forall j :: i < j < |s| ==> s[j] != c
    ensures LastIndex(s, c) == Some(i)
    decreases |s|
  {
    if i < |s| - 1 {
      LastIndexAt(s[..|s| - 1], c, i);
    }
  }

  /**
   * A dot at `d` starts the extension of `path`: it is the last dot, it is
   * in the last path component, and that component has a character other
   * than a dot before it.
   */
  predicate ExtensionAt(path: string, d: nat) {
    d < |path| && path[d] == '.'
    && (forall j :: d < j < |path| ==> path[j] != '.' && path[j] != '/')
    && exists k :: 0 <= k < d && path[k] != '.' && path[k] != '/' && forall j :: k < j < d ==> path[j] != '/'
  }

  /**
   * `os.path.splitext(path)[1]`: from the last dot of the last path
   * component, unless the component has only dots before it.
   */
  function Extension(path: string): (ext: string)
    ensures ext == "" || (ext[0] == '.' && EndsWith(path, ext))
    ensures ext != "" ==> ExtensionAt(path, |path| - |ext|)
    ensures ext == "" ==> forall d :: 0 <= d < |path| ==> !ExtensionAt(path, d)
  {
    var start := match LastIndex(path, '/') case Some(i) => i + 1 case None => 0;
    assert forall j :: start <= j < |path| ==> path[j] != '/';
    assert forall d :: 0 <= d < |path| && ExtensionAt(path, d) ==> LastIndex(path, '.') == Some(d) && start < d by {
      forall d | 0 <= d < |path| && ExtensionAt(path, d) ensures LastIndex(path, '.') == Some(d) && start < d {
        LastIndexAt(path, '.', d);
        var k :| 0 <= k < d && path[k] != '.' && path[k] != '/' && forall j :: k < j < d ==> path[j] != '/';
        assert start <= k;
      }
    }
    match LastIndex(path, '.')
    case None => ""
    case Some(d) =>
      if d < start then ""
      else if forall k :: start <= k < d ==> path[k] == '.' then ""
      else
        assert path[d..] == path[|path| - |path[d..]|..];
        assert ExtensionAt(path, d) by {
          var k :| start <= k < d && path[k] != '.';
        }
        path[d..]
  }

  /** The reader `get_data` uses; `NoReader` is the UnboundLocalError of a path it does not know. */
  datatype Reader =
    | ReadCsv
    | ReadJsonLines   // line-delimited, NaN filled with "None", sorted by index
    | ReadJsonIndex   // index-oriented, sorted by index
    | NoReader

  /** `get_data`: by extension, then for JSON by an 'O' or a 'P' anywhere in the path. */
  function GetData(path: string): (r: Reader)
    ensures r == ReadCsv <==> Extension(path) == ".csv"
    ensures r == ReadJsonLines <==> Extension(path) == ".json" && 'O' in path
    ensures r == ReadJsonIndex <==> Extension(path) == ".json" && 'O' !in path && 'P' in path
  {
    var ext := Extension(path);
    if ext == ".csv" then ReadCsv
    else if ext == ".json" then
      if 'O' in path then ReadJsonLines
      else if 'P' in path then ReadJsonIndex
      else NoReader
    else NoReader
  }

  /** A dot where `splitext` would cut makes the extension the rest of the path. */
  lemma ExtensionFrom(path: string, d: nat)
    requires ExtensionAt(path, d)
    ensures Extension(path) == path[d..]
  {
    var ext := Extension(path);
    assert ext != "";
    var e := |path| - |ext|;
    assert ExtensionAt(path, e);
  }

  /** The 'O' test looks at the whole path: a preprocessed file under an "ORIGINAL" directory is read as lines. */
  lemma OriginalTestSeesWholePath()
    ensures GetData("/ORIGINAL/P_1.json") == ReadJsonLines
  {
    var path := "/ORIGINAL/P_1.json";
    assert path[12] != '.' && path[12] != '/';
    ExtensionFrom(path, 13);
    assert path[13..] == ".json";
    assert path[1] == 'O';
  }

  /** Without an 'O', a 'P' selects the index-oriented reader. */
  lemma PreprocessedJsonIsIndexOriented()
    ensures GetData("/data/P_1.json") == ReadJsonIndex
  {
    var path := "/data/P_1.json";
    assert path[8] != '.' && path[8] != '/';
    ExtensionFrom(path, 9);
    assert path[9..] == ".json";
    assert path[6] == 'P';
    assert 'O' !in path;
  }

  /** A JSON path with neither letter has no reader. */
  lemma UnmarkedJsonHasNoReader()
    ensures GetData("/data/x.json") == NoReader
  {
    var path := "/data/x.json";
    assert path[6] != '.' && path[6] != '/';
    ExtensionFrom(path, 7);
    assert path[7..] == ".json";
    assert 'O' !in path && 'P' !in path;
  }

  lemma CsvIsReadAsCsv()
    ensures GetData("/data/x.csv") == ReadCsv
  {
    var path := "/data/x.csv";
    assert path[6] != '.' && path[6] != '/';
    ExtensionFrom(path, 7);
    assert path[7..] == ".csv";
  }

  /** A hidden file's name is not an extension: "/data/.csv" has none. */
  lemma HiddenNameHasNoExtension()
    ensures Extension("/data/.csv") == ""
    ensures GetData("/data/.csv") == NoReader
  {
    LastIndexAt("/data/.csv", '/', 5);
    LastIndexAt("/data/.csv", '.', 6);
  }

  /** Every column of a DataFrame has the same length. */
  predicate Rectangular(t: Table) {
    forall i :: 0 <= i < |t| ==> |t[i].values| == RowCount(t)
  }

  /** `size_info`: the number of rows, the length of every column. */
  function SizeInfo(t: Table): (n: nat)
    ensures Rectangular(t) ==> forall i :: 0 <= i < |t| ==> |t[i].values| == n
  {
    RowCount(t)
  }

  // ---------------------------------------------------------------------------
  // Counting values
  // ---------------------------------------------------------------------------

  /** `Series.unique()`: each value once, in order of first appearance. */
  function Distinct(v: seq<Cell>): (r: seq<Cell>)
    ensures forall c :: c in r <==> c in v
    ensures forall i, j :: 0 <= i < j < |r| ==> r[i] != r[j]
    ensures |r| <= |v|
    decreases |v|
  {
    if v == [] then []
    else
      var p := Distinct(v[..|v| - 1]);
      assert forall c :: c in v <==> c in v[..|v| - 1] || c == v[|v| - 1] by {
        assert v == v[..|v| - 1] + [v[|v| - 1]];
      }
      if v[|v| - 1] in p then p else p + [v[|v| - 1]]
  }

  /** `len(set(col)) == len(col)` exactly when no value repeats. */
  lemma {:induction false} DistinctAllUnique(v: seq<Cell>)
    ensures |Distinct(v)| == |v| <==> forall i, j :: 0 <= i < j < |v| ==> v[i] != v[j]
    decreases |v|
  {
    if v != [] {
      var n := |v| - 1;
      var q := v[..n];
      DistinctAllUnique(q);
      if forall i, j :: 0 <= i < j < |v| ==> v[i] != v[j] {
        assert forall i, j :: 0 <= i < j < |q| ==> q[i] != q[j];
        assert v[n] !in q;
      } else {
        var i, j :| 0 <= i < j < |v| && v[i] == v[j];
        if j == n {
          assert q[i] == v[n];
        } else {
          assert q[i] == q[j];
        }
      }
    }
  }

  /** How many times `c` occurs in `v`. */
  function Occurrences(v: seq<Cell>, c: Cell): (n: nat)
    ensures n <= |v|
    ensures n > 0 <==> c in v
  {
    if v == [] then 0
    else (if v[0] == c then 1 else 0) + Occurrences(v[1..], c)
  }

  /** `v` without its missing values, in order (`dropna`). */
  function DropMissing(v: seq<Cell>): (r: seq<Cell>)
    ensures forall c :: c in r <==> c in v && c != Missing
    ensures |r| == |v| - Occurrences(v, Missing)
  {
    if v == [] then []
    else (if v[0] == Missing then [] else [v[0]]) + DropMissing(v[1..])
  }

  /** `value_counts()`: each non-missing value with its count. */
  function ValueCounts(v: seq<Cell>): (r: seq<(Cell, nat)>)
    ensures |r| == |DropMissing(Distinct(v))|
    ensures forall i :: 0 <= i < |r| ==>
      r[i].0 in v && r[i].0 != Missing && r[i].1 == Occurrences(v, r[i].0) && r[i].1 > 0
    ensures forall c :: c in v && c != Missing ==> exists i :: 0 <= i < |r| && r[i].0 == c
  {
    var keys := DropMissing(Distinct(v));
    var r := seq(|keys|, i requires 0 <= i < |keys| => (keys[i], Occurrences(v, keys[i])));
    forall i | 0 <= i < |r|
      ensures r[i].0 in v && r[i].0 != Missing && r[i].1 == Occurrences(v, r[i].0) && r[i].1 > 0
    {
      assert r[i].0 == keys[i] && keys[i] in keys;
    }
    assert forall c :: c in v && c != Missing ==> c in keys;
    assert forall c :: c in keys ==> exists i :: 0 <= i < |r| && r[i].0 == c by {
      forall c | c in keys ensures exists i :: 0 <= i < |r| && r[i].0 == c {
        var i :| 0 <= i < |keys| && keys[i] == c;
        assert r[i].0 == c;
      }
    }
    r
  }

  /** `max(dic, key=dic.get)`: the first entry with the largest count. */
  function MostFrequent(counts: seq<(Cell, nat)>): (k: nat)
    requires counts != []
    ensures k < |counts|
    ensures forall j :: 0 <= j < |counts| ==> counts[j].1 <= counts[k].1
    ensures forall j :: 0 <= j < k ==> counts[j].1 < counts[k].1
    decreases |counts|
  {
    if |counts| == 1 then 0
    else
      var k := MostFrequent(counts[..|counts| - 1]);
      assert forall j :: 0 <= j < |counts| - 1 ==> counts[..|counts| - 1][j] == counts[j];
      if counts[|counts| - 1].1 > counts[k].1 then |counts| - 1 else k
  }

  // ---------------------------------------------------------------------------
  // _categorical
  // ---------------------------------------------------------------------------

  /** The `compact_data` of one column. */
  datatype Compact =
    | Unique(frequency: seq<string>, nan: string)
    | Counts(elements: seq<Cell>, frequency: seq<string>, valid: string, nan: string, mostFrequent: Option<Cell>)
    | Histogram(summary: NumericSummary, valid: string, nan: string)
    | NoData

  /** What the histogram of a numerical column reports; its numerics are not modelled. */
  datatype NumericSummary = NumericSummary(binsMeans: seq<string>, frequency: seq<string>, mean: string, std: string)

  function NatStrings(counts: seq<(Cell, nat)>): (r: seq<string>)
    ensures |r| == |counts|
    ensures forall i :: 0 <= i < |counts| ==> r[i] == NatToString(counts[i].1)
  {
    seq(|counts|, i requires 0 <= i < |counts| => NatToString(counts[i].1))
  }

  /**
   * `_categorical`: "count" when every value is distinct, otherwise "pie"
   * below three distinct values and "bar" from three on; None where the
   * most frequent value of an empty count raises.
   */
  function CategoricalGraph(v: seq<Cell>): (r: Option<(string, Compact)>)
    ensures r.Some? ==> r.value.0 in ["count", "pie", "bar"] && !r.value.1.NoData?
    ensures r.Some? && r.value.0 == "count" <==> |Distinct(v)| == |v|
    ensures r.Some? && r.value.0 == "pie" <==> |Distinct(v)| != |v| && |Distinct(v)| < 3
  {
    var counts := ValueCounts(v);
    if |Distinct(v)| == |v| then Some(("count", Unique([NatToString(|v|)], NatToString(Occurrences(v, Missing)))))
    else if |Distinct(v)| < 3 then Some(("pie", CountsCompact(v, None)))
    else if counts == [] then None
    else Some(("bar", CountsCompact(v, Some(counts[MostFrequent(counts)].0))))
  }

  /** The `compact_data` of "pie" and "bar", given the most frequent value "bar" adds. */
  function CountsCompact(v: seq<Cell>, mostFrequent: Option<Cell>): (data: Compact)
    ensures data.Counts? && data.mostFrequent == mostFrequent
  {
    var counts := ValueCounts(v);
    Counts(KeysOf(counts), NatStrings(counts), NatToString(|v| - Occurrences(v, Missing)),
           NatToString(Occurrences(v, Missing)), mostFrequent)
  }

  /** Every `_categorical` answer reports the number of missing values; "count" reports the length. */
  lemma CategoricalReportsMissing(v: seq<Cell>)
    requires CategoricalGraph(v).Some?
    ensures CategoricalGraph(v).value.1.nan == NatToString(Occurrences(v, Missing))
    ensures CategoricalGraph(v).value.0 == "count" ==>
      CategoricalGraph(v).value.1 == Unique([NatToString(|v|)], NatToString(Occurrences(v, Missing)))
  {
  }

  /**
   * "pie" and "bar" report the valid count and list every non-missing value
   * once with its frequency.
   */
  lemma CountsCompactReports(v: seq<Cell>, mostFrequent: Option<Cell>)
    ensures var data := CountsCompact(v, mostFrequent);
      data.valid == NatToString(|v| - Occurrences(v, Missing))
      && |data.elements| == |data.frequency|
      && (forall i :: 0 <= i < |data.elements| ==>
            data.elements[i] in v && data.elements[i] != Missing
            && data.frequency[i] == NatToString(Occurrences(v, data.elements[i])))
      && (forall c :: c in v && c != Missing ==> c in data.elements)
  {
    CountsTableReports(v);
    CountsCompactValid(v, mostFrequent, |v| - Occurrences(v, Missing));
  }

  /** The valid count of the count data, named so that its subtraction stays folded. */
  lemma CountsCompactValid(v: seq<Cell>, mostFrequent: Option<Cell>, valid: nat)
    requires valid == |v| - Occurrences(v, Missing)
    ensures CountsCompact(v, mostFrequent).valid == NatToString(valid)
  {
  }

  /** The value and frequency columns of `value_counts()`. */
  lemma CountsTableReports(v: seq<Cell>)
    ensures var counts := ValueCounts(v); var keys := KeysOf(counts); var freq := NatStrings(counts);
      |keys| == |freq|
      && (forall i :: 0 <= i < |keys| ==>
            keys[i] in v && keys[i] != Missing && freq[i] == NatToString(Occurrences(v, keys[i])))
      && (forall c :: c in v && c != Missing ==> c in keys)
  {
    var counts := ValueCounts(v);
    var keys, freq := KeysOf(counts), NatStrings(counts);
    forall i | 0 <= i < |keys|
      ensures keys[i] in v && keys[i] != Missing && freq[i] == NatToString(Occurrences(v, keys[i]))
    {
      assert keys[i] == counts[i].0 && freq[i] == NatToString(counts[i].1);
    }
    forall c | c in v && c != Missing ensures c in keys {
      var i :| 0 <= i < |counts| && counts[i].0 == c;
      assert keys[i] == c;
    }
  }

  /** Every answer other than "count" is the count data. */
  lemma CategoricalCountsShape(v: seq<Cell>)
    requires CategoricalGraph(v).Some? && CategoricalGraph(v).value.0 != "count"
    ensures CategoricalGraph(v).value.1 == CountsCompact(v, CategoricalGraph(v).value.1.mostFrequent)
  {
  }

  /** "bar" names a value that no other value outnumbers. */
  lemma BarNamesMostFrequent(v: seq<Cell>)
    requires CategoricalGraph(v).Some? && CategoricalGraph(v).value.0 == "bar"
    ensures var data := CategoricalGraph(v).value.1;
      data.Counts? && data.mostFrequent.Some? && data.mostFrequent.value in v
      && forall c :: c in v && c != Missing ==> Occurrences(v, c) <= Occurrences(v, data.mostFrequent.value)
  {
    var counts := ValueCounts(v);
    var k := MostFrequent(counts);
    forall c | c in v && c != Missing ensures Occurrences(v, c) <= counts[k].1 {
      var i :| 0 <= i < |counts| && counts[i].0 == c;
    }
  }

  /** Without duplicates, dropping the missing value removes at most one element. */
  lemma {:induction false} DropMissingOfDistinct(d: seq<Cell>)
    requires forall i, j :: 0 <= i < j < |d| ==> d[i] != d[j]
    ensures |DropMissing(d)| + 1 >= |d|
  {
    if Occurrences(d, Missing) > 1 {
      OccursTwice(d, Missing);
    }
  }

  /** A value counted twice sits at two indices. */
  lemma {:induction false} OccursTwice(d: seq<Cell>, c: Cell)
    requires Occurrences(d, c) > 1
    ensures exists i, j :: 0 <= i < j < |d| && d[i] == c && d[j] == c
    decreases |d|
  {
    if d[0] == c {
      assert Occurrences(d[1..], c) > 0;
      var j :| 0 <= j < |d[1..]| && d[1..][j] == c;
      assert d[j + 1] == c;
    } else {
      OccursTwice(d[1..], c);
      var i, j :| 0 <= i < j < |d[1..]| && d[1..][i] == c && d[1..][j] == c;
      assert d[i + 1] == c && d[j + 1] == c;
    }
  }

  /** The missing-count branch of `max` never raises: three distinct values leave at least two to count. */
  lemma CategoricalNeverRaises(v: seq<Cell>)
    ensures CategoricalGraph(v).Some?
  {
    DropMissingOfDistinct(Distinct(v));
  }

  // ---------------------------------------------------------------------------
  // statistics_info
  // ---------------------------------------------------------------------------

  datatype Kind = Numerical | Categorical

  /** A DataFrame column with the dtype pandas gave it. */
  datatype TypedColumn = TypedColumn(column: Column, dtype: DType)

  predicate NumericDType(d: DType) {
    d == Float64 || d == Float32 || d == Int64 || d == Int32
  }

  /** The unique values are exactly 0 and 1, in either order. */
  predicate IsBinary(v: seq<Cell>) {
    Distinct(v) == [Num(0.0), Num(1.0)] || Distinct(v) == [Num(1.0), Num(0.0)]
  }

  /**
   * The column-type decision of `statistics_info`: numerical only for a
   * numeric dtype whose column is neither entirely missing nor a 0/1 column.
   */
  function ColumnKind(c: TypedColumn): (k: Kind)
    ensures k == Numerical <==>
      NumericDType(c.dtype) && Occurrences(c.column.values, Missing) != |c.column.values| && !IsBinary(c.column.values)
  {
    var allMissing := Occurrences(c.column.values, Missing) == |c.column.values|;
    if !allMissing && !IsBinary(c.column.values) && NumericDType(c.dtype) then Numerical else Categorical
  }

  /** An empty column is "entirely missing", so it is categorical whatever its dtype. */
  lemma EmptyColumnIsCategorical(name: string, d: DType)
    ensures ColumnKind(TypedColumn(Column(name, []), d)) == Categorical
  {
  }

  /** A 0/1 column is categorical whatever its dtype. */
  lemma BinaryColumnIsCategorical(name: string, d: DType)
    ensures ColumnKind(TypedColumn(Column(name, [Num(1.0), Num(0.0), Num(1.0)]), d)) == Categorical
  {
    var v := [Num(1.0), Num(0.0), Num(1.0)];
    assert Distinct(v[..1]) == [Num(1.0)] by { assert v[..1][..0] == []; }
    assert Distinct(v[..2]) == [Num(1.0), Num(0.0)] by { assert v[..2][..1] == v[..1]; }
    assert Distinct(v) == [Num(1.0), Num(0.0)] by { assert v[..2] == v[..|v| - 1]; }
  }

  /** One entry of `data_statistics`. */
  datatype ColumnStats = ColumnStats(name: string, kind: Kind, graphType: string, compact: Compact)

  /**
   * The entry of one column: its kind, and the graph data of `_numerical`
   * or `_categorical`, or "" and {} where that raises. `histogram` stands
   * for `_numerical`'s plotting and statistics.
   */
  function ColumnStatsOf(c: TypedColumn, histogram: seq<Cell> -> Option<NumericSummary>): (s: ColumnStats)
    ensures s.name == c.column.name && s.kind == ColumnKind(c)
    ensures s.graphType == "" <==> s.compact == NoData
    ensures s.kind == Categorical ==> s.graphType in ["count", "pie", "bar"]
    ensures s.kind == Numerical ==> (s.graphType == "histogram" <==> histogram(c.column.values).Some?)
  {
    var v := c.column.values;
    var kind := ColumnKind(c);
    if kind == Numerical then
      match histogram(v)
      case Some(h) =>
        ColumnStats(c.column.name, kind, "histogram",
                    Histogram(h, NatToString(|v| - Occurrences(v, Missing)), NatToString(Occurrences(v, Missing))))
      case None => ColumnStats(c.column.name, kind, "", NoData)
    else
      CategoricalNeverRaises(v);
      var g := CategoricalGraph(v).value;
      ColumnStats(c.column.name, kind, g.0, g.1)
  }

  /**
   * The graph data of an entry is what `_numerical` or `_categorical` makes
   * of the column: the histogram with the valid and missing counts, or the
   * categorical answer, "count" exactly when every value is distinct and
   * "pie" exactly when there are fewer than three distinct values.
   */
  lemma ColumnStatsGraph(c: TypedColumn, histogram: seq<Cell> -> Option<NumericSummary>)
    ensures var s := ColumnStatsOf(c, histogram); var v := c.column.values;
      s.kind == Numerical && histogram(v).Some? ==>
        s.compact == Histogram(histogram(v).value, NatToString(|v| - Occurrences(v, Missing)),
                               NatToString(Occurrences(v, Missing)))
    ensures var s := ColumnStatsOf(c, histogram); var v := c.column.values;
      s.kind == Categorical ==>
        CategoricalGraph(v) == Some((s.graphType, s.compact))
        && (s.graphType == "count" <==> |Distinct(v)| == |v|)
        && (s.graphType == "pie" <==> |Distinct(v)| != |v| && |Distinct(v)| < 3)
  {
    var v := c.column.values;
    if ColumnKind(c) == Categorical {
      CategoricalNeverRaises(v);
      var g := CategoricalGraph(v).value;
      assert ColumnStatsOf(c, histogram) == ColumnStats(c.column.name, Categorical, g.0, g.1);
    }
  }

  class DataSummary {
    const data: seq<TypedColumn>

    /** The frame `get_data` read; reading itself is not modelled. */
    constructor (data: seq<TypedColumn>)
      ensures this.data == data
    {
      this.data := data;
    }

    /**
     * One pass of the first loop of `statistics_info`: the column's kind,
     * then the try block's graph data, or "" and {} where it raises.
     */
    static method ExtractGraph(c: TypedColumn, histogram: seq<Cell> -> Option<NumericSummary>)
      returns (kind: Kind, graphType: string, compact: Compact)
      ensures ColumnStats(c.column.name, kind, graphType, compact) == ColumnStatsOf(c, histogram)
    {
      var v := c.column.values;
      kind := ColumnKind(c);
      if kind == Numerical {
        match histogram(v)
        case Some(h) =>
          graphType := "histogram";
          compact := Histogram(h, NatToString(|v| - Occurrences(v, Missing)), NatToString(Occurrences(v, Missing)));
        case None =>
          graphType, compact := "", NoData;
      } else {
        CategoricalNeverRaises(v);
        var graph := CategoricalGraph(v).value;
        graphType, compact := graph.0, graph.1;
      }
    }

    /** The `zip` loop of `statistics_info`: one entry per column from the collected lists. */
    static method Assemble(columns: seq<TypedColumn>, kinds: seq<Kind>, graphTypes: seq<string>, compacts: seq<Compact>)
      returns (stats: seq<ColumnStats>)
      requires |kinds| == |graphTypes| == |compacts| == |columns|
      ensures |stats| == |columns|
      ensures forall j :: 0 <= j < |columns| ==>
        stats[j] == ColumnStats(columns[j].column.name, kinds[j], graphTypes[j], compacts[j])
    {
      stats := [];
      var i := 0;
      while i < |columns|
        invariant 0 <= i <= |columns|
        invariant |stats| == i
        invariant forall j :: 0 <= j < i ==> stats[j] == ColumnStats(columns[j].column.name, kinds[j], graphTypes[j], compacts[j])
      {
        stats := stats + [ColumnStats(columns[i].column.name, kinds[i], graphTypes[i], compacts[i])];
        i := i + 1;
      }
    }

    /** The entries collected so far are the first `|kinds|` of `expected`. */
    static predicate Collected(expected: seq<ColumnStats>, columns: seq<TypedColumn>,
                               kinds: seq<Kind>, graphTypes: seq<string>, compacts: seq<Compact>) {
      |kinds| == |graphTypes| == |compacts| <= |columns| == |expected|
      && forall j :: 0 <= j < |kinds| ==>
        expected[j] == ColumnStats(columns[j].column.name, kinds[j], graphTypes[j], compacts[j])
    }

    static lemma StatsExtend(expected: seq<ColumnStats>, columns: seq<TypedColumn>,
                             kinds: seq<Kind>, graphTypes: seq<string>, compacts: seq<Compact>,
                             kind: Kind, g: string, compact: Compact)
      requires Collected(expected, columns, kinds, graphTypes, compacts) && |kinds| < |columns|
      requires expected[|kinds|] == ColumnStats(columns[|kinds|].column.name, kind, g, compact)
      ensures Collected(expected, columns, kinds + [kind], graphTypes + [g], compacts + [compact])
    {
      var kinds', graphTypes', compacts' := kinds + [kind], graphTypes + [g], compacts + [compact];
      forall j | 0 <= j < |kinds'|
        ensures expected[j] == ColumnStats(columns[j].column.name, kinds'[j], graphTypes'[j], compacts'[j])
      {
        if j < |kinds| {
          assert kinds'[j] == kinds[j] && graphTypes'[j] == graphTypes[j] && compacts'[j] == compacts[j];
        }
      }
    }

    /** `statistics_info`: one entry per column, in column order. */
    method StatisticsInfo(histogram: seq<Cell> -> Option<NumericSummary>) returns (stats: seq<ColumnStats>)
      ensures |stats| == |data|
      ensures forall i :: 0 <= i < |data| ==> stats[i] == ColumnStatsOf(data[i], histogram)
    {
      var columns := data;
      ghost var expected := seq(|columns|, j requires 0 <= j < |columns| => ColumnStatsOf(columns[j], histogram));
      var kinds: seq<Kind> := [];
      var graphTypes: seq<string> := [];
      var compacts: seq<Compact> := [];
      var i := 0;
      while i < |columns|
        invariant 0 <= i <= |columns|
        invariant |kinds| == i
        invariant Collected(expected, columns, kinds, graphTypes, compacts)
      {
        var kind, g, compact := ExtractGraph(columns[i], histogram);
        StatsExtend(expected, columns, kinds, graphTypes, compacts, kind, g, compact);
        kinds, graphTypes, compacts := kinds + [kind], graphTypes + [g], compacts + [compact];
        i := i + 1;
      }
      stats := Assemble(columns, kinds, graphTypes, compacts);
    }
  }
}
