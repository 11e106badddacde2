/**
 * The shared helpers of the pipeline: the working table and its column
 * operations (`PreprocessUtils`), the shape of a transformer's output and its
 * densification, the names of expanded columns, and the pickle store
 * (`CallMixin._load_pickle` / `_dump_pickle`) modelled as a map from paths to
 * stored objects. The scikit-learn objects themselves are opaque: an
 * `Estimator` is its class name plus its parameter map, and what it computes
 * is supplied by the `Oracles` collaborators.
 */
module CustomCall {
  import opened Wrappers
  import opened Strings

  // ---------------------------------------------------------------------------
  // Working table
  // ---------------------------------------------------------------------------

  /** One cell of a pandas column; NaN and None both read as `Missing`. */
  datatype Cell = Num(r: real) | Text(s: string) | Missing

  datatype Column = Column(name: string, values: seq<Cell>)

  /** A DataFrame as its columns in order. */
  type Table = seq<Column>

  /** The dtype pandas infers for a column; the inference itself is not modelled. */
  datatype DType = ObjectType | Float64 | Float32 | Int64 | Int32 | BoolType | OtherType(name: string)

  function Names(t: Table): (r: seq<string>)
    ensures |r| == |t|
    ensures forall i :: 0 <= i < |t| ==> r[i] == t[i].name
  {
    seq(|t|, i requires 0 <= i < |t| => t[i].name)
  }

  /** The keys of a sequence of (key, value) pairs, in order: a dict's keys or a count table's values. */
  function KeysOf<K, V>(pairs: seq<(K, V)>): (keys: seq<K>)
    ensures |keys| == |pairs|
    ensures forall i :: 0 <= i < |pairs| ==> keys[i] == pairs[i].0
  {
    seq(|pairs|, i requires 0 <= i < |pairs| => pairs[i].0)
  }

  /** Column labels of a DataFrame are expected to be distinct. */
  predicate UniqueNames(t: Table) {
    forall i, j :: 0 <= i < j < |t| ==> t[i].name != t[j].name
  }

  /** `data[name]`: the values of the (first) column with that name. */
  function Get(t: Table, name: string): (r: Option<seq<Cell>>)
    ensures r.Some? <==> name in Names(t)
    ensures r.Some? ==> exists i :: 0 <= i < |t| && t[i].name == name && t[i].values == r.value
  {
    if t == [] then None
    else if t[0].name == name then Some(t[0].values)
    else
      var r := Get(t[1..], name);
      assert Names(t) == [t[0].name] + Names(t[1..]);
      assert r.Some? ==> exists i :: 1 <= i < |t| && t[i].name == name && t[i].values == r.value by {
        if r.Some? {
          var i :| 0 <= i < |t[1..]| && t[1..][i].name == name && t[1..][i].values == r.value;
          assert t[i + 1] == t[1..][i];
        }
      }
      r
  }

  /** The columns of `t` whose name differs from `name`, in order. */
  function RemoveNamed(t: Table, name: string): Table {
    if t == [] then []
    else (if t[0].name == name then [] else [t[0]]) + RemoveNamed(t[1..], name)
  }

  /** `PreprocessUtils._drop_columns`: pandas raises KeyError for an absent label. */
  function DropColumns(t: Table, name: string): (r: Option<Table>)
    ensures r.Some? <==> name in Names(t)
    ensures r.Some? ==> name !in Names(r.value)
    ensures r.Some? ==> forall n :: n in Names(t) && n != name ==> n in Names(r.value)
    ensures r.Some? ==> forall c :: c in r.value ==> c in t
  {
    if name in Names(t) then
      RemoveNamedFacts(t, name);
      Some(RemoveNamed(t, name))
    else None
  }

  lemma RemoveNamedFacts(t: Table, name: string)
    ensures name !in Names(RemoveNamed(t, name))
    ensures forall n :: n in Names(t) && n != name ==> n in Names(RemoveNamed(t, name))
    ensures forall c :: c in RemoveNamed(t, name) ==> c in t
  {
    var r := RemoveNamed(t, name);
    RemoveNamedMembers(t, name);
    forall n | n in Names(t) && n != name
      ensures n in Names(r)
    {
      var i :| 0 <= i < |t| && Names(t)[i] == n;
      assert t[i] in t;
      var j :| 0 <= j < |r| && r[j] == t[i];
      assert Names(r)[j] == n;
    }
    forall j | 0 <= j < |r|
      ensures Names(r)[j] != name
    {
      assert r[j] in r;
    }
  }

  /** A column survives RemoveNamed exactly when it was in the table under another name. */
  lemma {:induction false} RemoveNamedMembers(t: Table, name: string)
    ensures forall c :: c in RemoveNamed(t, name) <==> c in t && c.name != name
  {
    if t != [] {
      RemoveNamedMembers(t[1..], name);
      assert t == [t[0]] + t[1..];
    }
  }

  /** With distinct labels, dropping removes exactly the one named column and keeps the rest in order. */
  lemma {:induction false} DropColumnsExact(t: Table, k: nat)
    requires UniqueNames(t) && k < |t|
    ensures DropColumns(t, t[k].name) == Some(t[..k] + t[k + 1..])
  {
    assert t[k].name in Names(t);
    RemoveAt(t, k);
  }

  lemma {:induction false} RemoveAt(t: Table, k: nat)
    requires UniqueNames(t) && k < |t|
    ensures RemoveNamed(t, t[k].name) == t[..k] + t[k + 1..]
  {
    if k == 0 {
      RemoveAbsent(t[1..], t[0].name);
      assert t[1..] == t[..0] + t[1..];
    } else {
      RemoveAt(t[1..], k - 1);
      assert t[1..][k - 1] == t[k];
      assert t[..k] + t[k + 1..] == [t[0]] + (t[1..][..k - 1] + t[1..][k..]);
    }
  }

  lemma {:induction false} RemoveAbsent(t: Table, name: string)
    requires forall i :: 0 <= i < |t| ==> t[i].name != name
    ensures RemoveNamed(t, name) == t
  {
    if t != [] {
      RemoveAbsent(t[1..], name);
    }
  }

  /** Removing a label from two tables side by side removes it from each part. */
  lemma {:induction false} RemoveNamedAppend(a: Table, b: Table, name: string)
    ensures RemoveNamed(a + b, name) == RemoveNamed(a, name) + RemoveNamed(b, name)
  {
    if a != [] {
      RemoveNamedAppend(a[1..], b, name);
      assert (a + b)[1..] == a[1..] + b;
    } else {
      assert a + b == b;
    }
  }

  /** The columns of `t` whose label is none of `names`, in table order. */
  function KeepUnnamed(t: Table, names: seq<string>): Table {
    if t == [] then []
    else (if t[0].name in names then [] else [t[0]]) + KeepUnnamed(t[1..], names)
  }

  /** A column is kept exactly when it was in the table under a label not named. */
  lemma {:induction false} KeepUnnamedMembers(t: Table, names: seq<string>)
    ensures forall c :: c in KeepUnnamed(t, names) <==> c in t && c.name !in names
  {
    if t != [] {
      KeepUnnamedMembers(t[1..], names);
      assert t == [t[0]] + t[1..];
    }
  }

  /** Naming nothing keeps the whole table. */
  lemma {:induction false} KeepUnnamedNone(t: Table)
    ensures KeepUnnamed(t, []) == t
  {
    if t != [] {
      KeepUnnamedNone(t[1..]);
      assert t == [t[0]] + t[1..];
    }
  }

  /** Removing one label and then keeping the unnamed columns is keeping the columns named by neither. */
  lemma {:induction false} RemoveThenKeep(t: Table, name: string, names: seq<string>)
    ensures KeepUnnamed(RemoveNamed(t, name), names) == KeepUnnamed(t, [name] + names)
  {
    if t != [] {
      RemoveThenKeep(t[1..], name, names);
      var rest := RemoveNamed(t[1..], name);
      assert t[0].name in [name] + names <==> t[0].name == name || t[0].name in names;
      if t[0].name != name {
        var r := [t[0]] + rest;
        assert RemoveNamed(t, name) == r;
        assert r[0] == t[0] && r[1..] == rest;
        assert KeepUnnamed(r, names) == (if t[0].name in names then [] else [t[0]]) + KeepUnnamed(rest, names);
      } else {
        assert RemoveNamed(t, name) == rest;
      }
    }
  }

  /** `data[name] = values`: overwrite a present column in place, or append a new one. */
  function SetColumn(t: Table, name: string, values: seq<Cell>): Table {
    if name in Names(t) then
      seq(|t|, i requires 0 <= i < |t| => if t[i].name == name then Column(name, values) else t[i])
    else t + [Column(name, values)]
  }

  /** Overwriting a present column keeps every label and its position and changes only that column. */
  lemma SetColumnInPlace(t: Table, name: string, values: seq<Cell>)
    requires name in Names(t)
    ensures Names(SetColumn(t, name, values)) == Names(t)
    ensures Get(SetColumn(t, name, values), name) == Some(values)
    ensures forall i :: 0 <= i < |t| && t[i].name != name ==> SetColumn(t, name, values)[i] == t[i]
  {
    var r := SetColumn(t, name, values);
    assert Names(r) == Names(t);
    GetFirst(r, name, values);
  }

  lemma {:induction false} GetFirst(t: Table, name: string, values: seq<Cell>)
    requires name in Names(t)
    requires forall i :: 0 <= i < |t| && t[i].name == name ==> t[i].values == values
    ensures Get(t, name) == Some(values)
  {
    if t[0].name != name {
      assert Names(t) == [t[0].name] + Names(t[1..]);
      GetFirst(t[1..], name, values);
    }
  }

  /** Number of rows, as `DataFrame.shape[0]` (zero for a table without columns). */
  function RowCount(t: Table): nat {
    if t == [] then 0 else |t[0].values|
  }

  // ---------------------------------------------------------------------------
  // Transformer output
  // ---------------------------------------------------------------------------

  /** What `fit_transform` / `transform` return: a rank-1 array, a dense 2-D array, or a sparse matrix. */
  datatype Output =
    | Vector(values: seq<Cell>)
    | Matrix(width: nat, rows: seq<seq<Cell>>)
    | SparseMatrix(width: nat, rows: seq<seq<Cell>>)

  /** numpy's `shape`. */
  function Shape(o: Output): seq<nat> {
    match o
    case Vector(v) => [|v|]
    case Matrix(w, rows) => [|rows|, w]
    case SparseMatrix(w, rows) => [|rows|, w]
  }

  predicate IsDense(o: Output) {
    !o.SparseMatrix?
  }

  /** `PreprocessUtils._to_array`: dense arrays unchanged, sparse matrices densified. */
  function ToArray(o: Output): (r: Output)
    ensures IsDense(r)
    ensures Shape(r) == Shape(o)
    ensures IsDense(o) ==> r == o
    ensures o.SparseMatrix? ==> r.rows == o.rows
  {
    if o.SparseMatrix? then Matrix(o.width, o.rows) else o
  }

  /** Column `k` of a row-major matrix. */
  function MatrixColumn(rows: seq<seq<Cell>>, k: nat): (c: seq<Cell>)
    ensures |c| == |rows|
  {
    seq(|rows|, i requires 0 <= i < |rows| => if k < |rows[i]| then rows[i][k] else Missing)
  }

  /** `PreprocessUtils._new_columns`: one label per output column, `<field>_<i>` for i in 0..width-1. */
  function NewColumns(field: string, width: nat): (names: seq<string>)
    ensures |names| == width
    ensures forall i :: 0 <= i < width ==>
      StartsWith(names[i], field + "_")
      && CanonicalDigits(names[i][|field| + 1..])
      && ParseNat(names[i][|field| + 1..]) == i
  {
    var names := seq(width, i requires 0 <= i < width => field + "_" + NatToString(i));
    assert forall i :: 0 <= i < width ==> names[i][|field| + 1..] == NatToString(i);
    forall i | 0 <= i < width
      ensures ParseNat(names[i][|field| + 1..]) == i && CanonicalDigits(names[i][|field| + 1..])
    {
      ParseNatToString(i);
      NatToStringCanonical(i);
    }
    names
  }

  /** Expanded labels are pairwise distinct and never equal the source label. */
  lemma NewColumnsDistinct(field: string, width: nat)
    ensures forall i, j :: 0 <= i < j < width ==> NewColumns(field, width)[i] != NewColumns(field, width)[j]
    ensures field !in NewColumns(field, width)
  {
    var names := NewColumns(field, width);
    forall i, j | 0 <= i < j < width
      ensures names[i] != names[j]
    {
      assert names[i][|field| + 1..] != names[j][|field| + 1..];
    }
  }

  // ---------------------------------------------------------------------------
  // scikit-learn objects and the collaborators that compute with them
  // ---------------------------------------------------------------------------

  /** A parameter value as Python holds it after coercion. */
  datatype Value =
    | FloatVal(f: real)
    | IntVal(i: int)
    | BoolVal(b: bool)
    | NullVal
    | ListVal(items: seq<string>)
    | NaNVal
    | StrVal(s: string)
    | TupleVal(elements: seq<Value>)
    | DictVal(entries: seq<(Value, Value)>)

  /** A row of the preprocess-function catalogue. */
  datatype Descriptor = Descriptor(
    name: string,          // PREPROCESS_FUNCTIONS_NAME
    library: string,       // LIBRARY_NAME
    objectName: string,    // LIBRARY_OBJECT_NAME
    functionName: string)  // LIBRARY_FUNCTION_NAME, the class that gets constructed

  /** A scikit-learn object: its class name and its settable parameters. */
  class Estimator {
    const className: string
    var params: map<string, Value>

    constructor (className: string, params: map<string, Value>)
      ensures this.className == className && this.params == params
    {
      this.className := className;
      this.params := params;
    }
  }

  /** A fitted transformer as written to a pickle file. */
  datatype Artifact = Artifact(className: string, params: map<string, Value>, fittedOn: seq<Cell>)

  /** The class vocabulary a fitted transformer exposes and its encoding. */
  datatype Classes = Classes(original: seq<Cell>, encoded: Output)

  /** The result of `fit_transform` on one column: an exception message, or the output. */
  datatype FitOutcome = FitFailed(message: string) | Fitted(output: Output, classes: Option<Classes>)

  /**
   * The external collaborators: the dynamic import of `_get_base_object`
   * (default parameters, or a failure), the transformer algorithms, and
   * Python's `ast.literal_eval`.
   */
  datatype Oracles = Oracles(
    resolve: Descriptor -> Option<map<string, Value>>,
    fitTransform: (string, map<string, Value>, seq<Cell>) -> FitOutcome,
    transform: (Artifact, seq<Cell>) -> Option<Output>,
    literalEval: string -> Option<Value>)

  /** `CallMixin._get_base_object`: a fresh object with default parameters, or None on failure. */
  method GetBaseObject(d: Descriptor, oracles: Oracles) returns (e: Option<Estimator>)
    ensures e.None? <==> oracles.resolve(d).None?
    ensures e.Some? ==>
      fresh(e.value) && e.value.className == d.functionName && e.value.params == oracles.resolve(d).value
  {
    match oracles.resolve(d)
    case None =>
      e := None;
    case Some(defaults) =>
      var obj := new Estimator(d.functionName, defaults);
      e := Some(obj);
  }

  // ---------------------------------------------------------------------------
  // Pickle store
  // ---------------------------------------------------------------------------

  /** The configured result directories. */
  datatype PathConfig = PathConfig(modelDir: string, transformerDir: string, preprocessedDir: string)

  /** The base-path alias resolution of `_load_pickle` / `_dump_pickle`. */
  function ResolveBase(cfg: PathConfig, base: string): (dir: string)
    ensures base == "MODEL_DIR" ==> dir == cfg.modelDir
    ensures base == "PREPROCESS_TRANSFORMER_DIR" ==> dir == cfg.transformerDir
    ensures base != "MODEL_DIR" && base != "PREPROCESS_TRANSFORMER_DIR" ==> dir == base
  {
    if base == "MODEL_DIR" then cfg.modelDir
    else if base == "PREPROCESS_TRANSFORMER_DIR" then cfg.transformerDir
    else base
  }

  /** `os.path.join(dir, name)` for POSIX paths. */
  function JoinPath(dir: string, name: string): string {
    if StartsWith(name, "/") then name
    else if dir == [] || EndsWith(dir, "/") then dir + name
    else dir + "/" + name
  }

  function PicklePath(cfg: PathConfig, base: string, name: string): string {
    JoinPath(ResolveBase(cfg, base), name)
  }

  /** `_load_pickle`: the stored object, or None where joblib would raise FileNotFoundError. */
  function LoadPickle<A>(store: map<string, A>, cfg: PathConfig, base: string, name: string): Option<A> {
    var path := PicklePath(cfg, base, name);
    if path in store then Some(store[path]) else None
  }

  /** `_dump_pickle`: store the object at the joined path and return that path. */
  function DumpPickle<A>(store: map<string, A>, cfg: PathConfig, base: string, name: string, obj: A)
    : (r: (map<string, A>, string))
    ensures r.1 == PicklePath(cfg, base, name)
    ensures r.0.Keys == store.Keys + {r.1}
    ensures LoadPickle(r.0, cfg, base, name) == Some(obj)
    ensures forall p :: p in store && p != r.1 ==> r.0[p] == store[p]
  {
    var path := PicklePath(cfg, base, name);
    (store[path := obj], path)
  }
}
