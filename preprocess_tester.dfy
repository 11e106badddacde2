/**
 * The preprocessing preview (`TestPreprocessor`): the requested transformers
 * are fitted on the original table and the first values of their output are
 * shown, without storing anything. Drops change the preview table, transforms
 * never write back, and the first error is returned instead of the results.
 */
module PreprocessTester {
  import opened Wrappers
  import opened Strings
  import opened CustomCall
  import opened PreprocessBase
  import opened PreprocessHelper

  /** The number of values a preview shows. */
  const ShownCount: nat := 5

  // ---------------------------------------------------------------------------
  // Request validation
  // ---------------------------------------------------------------------------

  /** The key layout of a PATCH body: its top-level keys and the keys of each `request_test` item. */
  datatype PatchBody = PatchBody(keys: seq<string>, itemKeys: seq<seq<string>>)

  /** `_mandatory_key_exists_original_patch`. */
  function MandatoryKeyExistsOriginalPatch(body: PatchBody): (r: KeyCheck)
    ensures "request_test" !in body.keys ==> r == MissingKey("request_test")
    ensures "request_test" in body.keys ==>
      (r == AllPresent <==> forall i :: 0 <= i < |body.itemKeys| ==> forall k :: k in LevelTwo ==> k in body.itemKeys[i])
    ensures r.MissingKey? && "request_test" in body.keys ==> r.key in LevelTwo
    ensures "request_test" in body.keys ==>
      forall i :: (0 <= i < |body.itemKeys| && Absent(LevelTwo, body.itemKeys[i]) != []
        && (forall j :: 0 <= j < i ==> Absent(LevelTwo, body.itemKeys[j]) == [])) ==>
          r == MissingKey(Absent(LevelTwo, body.itemKeys[i])[0])
  {
    if "request_test" !in body.keys then MissingKey("request_test")
    else
      match FirstMissingItemKey(body.itemKeys, LevelTwo)
      case None => AllPresent
      case Some(k) => MissingKey(k)
  }

  /**
   * One request of `check_request_body_original_patch`: Http404 for an
   * unknown function, else 4102 naming its first fanned-out field the table
   * lacks, else it passes.
   */
  function RequestVerdict(columns: seq<string>, req: Request, catalogue: map<int, Descriptor>): (v: Verdict)
    ensures v == NotFound <==> req.funcPk !in catalogue
    ensures v == Valid <==> req.funcPk in catalogue && FieldsPresent(columns, req.fieldName)
    ensures v.Invalid? ==> v.errorType == "4102" && v.errorMsg !in columns && v.errorMsg in FanOut(req.fieldName)
    ensures v.Invalid? ==>
      var fields := FanOut(req.fieldName);
      forall i :: (0 <= i < |fields| && fields[i] !in columns && (forall j :: 0 <= j < i ==> fields[j] in columns)) ==>
        v.errorMsg == fields[i]
  {
    if req.funcPk !in catalogue then NotFound
    else
      var absent := Absent(FanOut(req.fieldName), columns);
      if absent == [] then Valid
      else
        assert absent[0] in absent;
        var fields := FanOut(req.fieldName);
        forall i | 0 <= i < |fields| && fields[i] !in columns && (forall j :: 0 <= j < i ==> fields[j] in columns)
          ensures absent[0] == fields[i]
        {
          AbsentFirst(fields, columns, i);
        }
        Invalid("4102", absent[0])
  }

  /**
   * The request loop of `check_request_body_original_patch`: the verdict of
   * the first request that does not pass.
   */
  function CheckPreviewRequests(columns: seq<string>, reqs: seq<Request>, catalogue: map<int, Descriptor>): (v: Verdict)
    ensures v == Valid <==>
      forall i :: 0 <= i < |reqs| ==> reqs[i].funcPk in catalogue && FieldsPresent(columns, reqs[i].fieldName)
    ensures v.Invalid? ==> v.errorType == "4102" && v.errorMsg !in columns
    ensures forall i :: (0 <= i < |reqs| && RequestVerdict(columns, reqs[i], catalogue) != Valid
      && (forall j :: 0 <= j < i ==> RequestVerdict(columns, reqs[j], catalogue) == Valid)) ==>
        v == RequestVerdict(columns, reqs[i], catalogue)
  {
    if reqs == [] then Valid
    else
      var first := RequestVerdict(columns, reqs[0], catalogue);
      if first != Valid then
        FirstVerdictHere(columns, reqs, catalogue);
        first
      else
        var v := CheckPreviewRequests(columns, reqs[1..], catalogue);
        AllPassShift(columns, reqs, catalogue);
        FirstVerdictShift(columns, reqs, catalogue, v);
        v
  }

  /** A failing first request decides the verdict. */
  lemma FirstVerdictHere(columns: seq<string>, reqs: seq<Request>, catalogue: map<int, Descriptor>)
    requires reqs != [] && RequestVerdict(columns, reqs[0], catalogue) != Valid
    ensures !(reqs[0].funcPk in catalogue && FieldsPresent(columns, reqs[0].fieldName))
    ensures forall i :: (0 <= i < |reqs| && RequestVerdict(columns, reqs[i], catalogue) != Valid
      && (forall j :: 0 <= j < i ==> RequestVerdict(columns, reqs[j], catalogue) == Valid)) ==> i == 0
  {
  }

  /** When the first request passes, all requests pass exactly when the rest do. */
  lemma AllPassShift(columns: seq<string>, reqs: seq<Request>, catalogue: map<int, Descriptor>)
    requires reqs != [] && RequestVerdict(columns, reqs[0], catalogue) == Valid
    ensures (forall i :: 0 <= i < |reqs| ==> reqs[i].funcPk in catalogue && FieldsPresent(columns, reqs[i].fieldName))
      <==> forall i :: 0 <= i < |reqs[1..]| ==>
        reqs[1..][i].funcPk in catalogue && FieldsPresent(columns, reqs[1..][i].fieldName)
  {
    assert forall i :: 1 <= i < |reqs| ==> reqs[i] == reqs[1..][i - 1];
  }

  /** When the first request passes, the first failing verdict of the rest is the first of all. */
  lemma FirstVerdictShift(columns: seq<string>, reqs: seq<Request>, catalogue: map<int, Descriptor>, v: Verdict)
    requires reqs != [] && RequestVerdict(columns, reqs[0], catalogue) == Valid
    requires forall i :: (0 <= i < |reqs[1..]| && RequestVerdict(columns, reqs[1..][i], catalogue) != Valid
      && (forall j :: 0 <= j < i ==> RequestVerdict(columns, reqs[1..][j], catalogue) == Valid)) ==>
        v == RequestVerdict(columns, reqs[1..][i], catalogue)
    ensures forall i :: (0 <= i < |reqs| && RequestVerdict(columns, reqs[i], catalogue) != Valid
      && (forall j :: 0 <= j < i ==> RequestVerdict(columns, reqs[j], catalogue) == Valid)) ==>
        v == RequestVerdict(columns, reqs[i], catalogue)
  {
    forall i | (0 <= i < |reqs| && RequestVerdict(columns, reqs[i], catalogue) != Valid
      && (forall j :: 0 <= j < i ==> RequestVerdict(columns, reqs[j], catalogue) == Valid))
      ensures v == RequestVerdict(columns, reqs[i], catalogue)
    {
      assert reqs[i] == reqs[1..][i - 1];
      forall j | 0 <= j < i - 1 ensures RequestVerdict(columns, reqs[1..][j], catalogue) == Valid {
        assert reqs[1..][j] == reqs[j + 1];
      }
    }
  }

  /** `check_request_body_original_patch`: 4101 for a missing key, then the request loop. */
  function CheckRequestBodyOriginalPatch(body: PatchBody, columns: seq<string>, reqs: seq<Request>,
                                         catalogue: map<int, Descriptor>): (v: Verdict)
    ensures MandatoryKeyExistsOriginalPatch(body).MissingKey? ==>
      v == Invalid("4101", MandatoryKeyExistsOriginalPatch(body).key)
    ensures MandatoryKeyExistsOriginalPatch(body) == AllPresent ==> v == CheckPreviewRequests(columns, reqs, catalogue)
  {
    match MandatoryKeyExistsOriginalPatch(body)
    case MissingKey(k) => Invalid("4101", k)
    case AllPresent => CheckPreviewRequests(columns, reqs, catalogue)
  }

  /** An unknown function id is reported only after every earlier request has passed its field check. */
  lemma UnknownFunctionRaises404(columns: seq<string>, reqs: seq<Request>, catalogue: map<int, Descriptor>, k: nat)
    requires k < |reqs| && reqs[k].funcPk !in catalogue
    requires forall i :: 0 <= i < k ==>
      reqs[i].funcPk in catalogue && forall f :: f in FanOut(reqs[i].fieldName) ==> f in columns
    ensures CheckPreviewRequests(columns, reqs, catalogue) == NotFound
    decreases k
  {
    if k > 0 {
      AbsentEmpty(FanOut(reqs[0].fieldName), columns);
      forall i | 0 <= i < k - 1
        ensures reqs[1..][i].funcPk in catalogue && forall f :: f in FanOut(reqs[1..][i].fieldName) ==> f in columns
      {
        assert reqs[1..][i] == reqs[i + 1];
      }
      UnknownFunctionRaises404(columns, reqs[1..], catalogue, k - 1);
    }
  }

  // ---------------------------------------------------------------------------
  // Showing a transformer's output
  // ---------------------------------------------------------------------------

  /** One shown value: a cell as it is, Python's `str()` of a scalar or of a row, or the blank of a drop. */
  datatype Shown = ShownCell(cell: Cell) | ShownText(of: Cell) | ShownRow(row: seq<Cell>) | ShownBlank

  function Min(a: nat, b: nat): nat {
    if a < b then a else b
  }

  /** The rows of an output (a rank-1 output has one value per row). */
  function RowsOf(o: Output): nat {
    if o.Vector? then |o.values| else |o.rows|
  }

  /**
   * `_convert_to_return_shape`: the case is chosen by the type of the second
   * row. A width-1 array shows the first values, a rank-1 numeric array their
   * strings, a sparse or wider array its first rows; anything else shows
   * nothing. None stands for the IndexError of an output with fewer than two rows.
   */
  function ConvertToReturnShape(o: Output): (r: Option<seq<Shown>>)
    ensures r.None? <==> RowsOf(o) < 2
    ensures r.Some? ==> |r.value| == (if o.Vector? && o.values[1].Text? then 0 else Min(ShownCount, RowsOf(o)))
  {
    if RowsOf(o) < 2 then None
    else
      var n := Min(ShownCount, RowsOf(o));
      match o
      case Matrix(w, rows) =>
        if w == 1 then
          var first := MatrixColumn(rows[..n], 0);
          Some(seq(n, i requires 0 <= i < n => ShownCell(first[i])))
        else Some(seq(n, i requires 0 <= i < n => ShownRow(rows[i])))
      case Vector(values) =>
        if values[1].Text? then Some([])
        else Some(seq(n, i requires 0 <= i < n => ShownText(values[i])))
      case SparseMatrix(w, rows) =>
        Some(seq(n, i requires 0 <= i < n => ShownRow(rows[i])))
  }

  /** At most five values are shown, and they are the first ones, in order. */
  lemma ShowsFirstFive(o: Output)
    requires RowsOf(o) >= 2
    ensures |ConvertToReturnShape(o).value| <= ShownCount
    ensures o.Vector? ==> forall i :: 0 <= i < |ConvertToReturnShape(o).value| ==>
      ConvertToReturnShape(o).value[i] == ShownText(o.values[i])
    ensures o.Matrix? && o.width == 1 ==> forall i :: 0 <= i < |ConvertToReturnShape(o).value| ==>
      ConvertToReturnShape(o).value[i] == ShownCell(MatrixColumn(o.rows, 0)[i])
    ensures !o.Vector? && !(o.Matrix? && o.width == 1) ==> forall i :: 0 <= i < |ConvertToReturnShape(o).value| ==>
      ConvertToReturnShape(o).value[i] == ShownRow(o.rows[i])
  {
  }

  /** What a failed preview reports: the detail of a parameter error, or [field, transformer, message]. */
  datatype ErrorMsg = Detail(text: string) | Triple(field: string, name: string, message: string)

  datatype TestError = TestError(errorType: string, errorMsg: ErrorMsg)

  /** The start of numpy's IndexError message for `after_[1]` on a dense array. */
  const DenseIndexError: string := "index 1 is out of bounds for axis 0 with size "

  /** scipy's IndexError message for row 1 of a sparse matrix with fewer than two rows. */
  const SparseIndexError: string := "row index (1) out of range"

  /**
   * The message of the IndexError `after_[1]` raises on an output with fewer
   * than two rows: a dense array's names the axis-0 size, that is the row
   * count; a sparse matrix's names the row asked for.
   */
  function IndexErrorMessage(o: Output): (m: string)
    requires RowsOf(o) < 2
    ensures o.SparseMatrix? ==> m == SparseIndexError
    ensures !o.SparseMatrix? ==>
      |DenseIndexError| < |m| && m[..|DenseIndexError|] == DenseIndexError
      && IsDigits(m[|DenseIndexError|..]) && ParseNat(m[|DenseIndexError|..]) == RowsOf(o)
  {
    if o.SparseMatrix? then SparseIndexError
    else
      var n := NatToString(RowsOf(o));
      ParseNatToString(RowsOf(o));
      assert (DenseIndexError + n)[|DenseIndexError|..] == n;
      DenseIndexError + n
  }

  /**
   * `_test_transformer`: fit on the column and show the output, or report a
   * `PreprocessorTestError` with [field, transformer class, message].
   */
  function TestTransformer(column: seq<Cell>, fieldName: string, className: string, params: map<string, Value>,
                           oracles: Oracles): (r: Result<seq<Shown>, ErrorMsg>)
    ensures r.Ok? ==> |r.value| <= ShownCount
    ensures r.Err? ==> r.error.Triple? && r.error.field == fieldName && r.error.name == className
    ensures r.Err? <==>
      oracles.fitTransform(className, params, column).FitFailed?
      || RowsOf(oracles.fitTransform(className, params, column).output) < 2
    ensures oracles.fitTransform(className, params, column).FitFailed? ==>
      r == Err(Triple(fieldName, className, oracles.fitTransform(className, params, column).message))
    ensures var f := oracles.fitTransform(className, params, column);
      f.Fitted? && RowsOf(f.output) < 2 ==> r == Err(Triple(fieldName, className, IndexErrorMessage(f.output)))
  {
    match oracles.fitTransform(className, params, column)
    case FitFailed(message) => Err(Triple(fieldName, className, message))
    case Fitted(out, _) =>
      match ConvertToReturnShape(out)
      case None => Err(Triple(fieldName, className, IndexErrorMessage(out)))
      case Some(shown) =>
        ShowsFirstFive(out);
        Ok(shown)
  }

  // ---------------------------------------------------------------------------
  // The preview runner
  // ---------------------------------------------------------------------------

  /** An entry of `test_total_result`. */
  datatype TestRecord = TestRecord(
    fieldName: string,
    functionName: string,
    parameter: Option<seq<(string, RawParam)>>,
    testResult: seq<Shown>)

  /** How far a preview got: still running, stopped by an error dictionary, or stopped by an exception. */
  datatype Stop = Running | Errored(error: TestError) | Raised

  datatype Preview = Preview(data: Table, results: seq<TestRecord>, stop: Stop)

  /** The record of a previewed drop: five blanks. */
  function DropRecord(field: string, funcName: string): TestRecord {
    TestRecord(field, funcName, None, seq(ShownCount, i => ShownBlank))
  }

  /** What a preview drop guarantees, given the table, the results so far and the fields. */
  predicate PreviewDropPost(data: Table, results: seq<TestRecord>, fields: seq<string>, funcName: string, p: Preview) {
    (p.stop.Running? || p.stop.Raised?)
    && |results| <= |p.results| <= |results| + |fields| && p.results[..|results|] == results
    && (forall i :: |results| <= i < |p.results| ==> p.results[i] == DropRecord(fields[i - |results|], funcName))
    && (p.stop.Running? ==> |p.results| == |results| + |fields|)
    && (p.stop.Raised? ==>
          |p.results| - |results| < |fields| && fields[|p.results| - |results|] !in Names(p.data))
    && p.data == KeepUnnamed(data, fields[..|p.results| - |results|])
  }

  /**
   * `_test_result_drop_columns`: drop each field from the preview table; an
   * absent one raises KeyError. The table reached is the input without the
   * columns dropped so far.
   */
  function PreviewDrop(data: Table, results: seq<TestRecord>, fields: seq<string>, funcName: string): (p: Preview)
    ensures PreviewDropPost(data, results, fields, funcName, p)
    decreases |fields|
  {
    if fields == [] then KeepUnnamedNone(data); Preview(data, results, Running)
    else
      match DropColumns(data, fields[0])
      case None => KeepUnnamedNone(data); Preview(data, results, Raised)
      case Some(t) =>
        var p := PreviewDrop(t, results + [DropRecord(fields[0], funcName)], fields[1..], funcName);
        PreviewDropStep(data, results, fields, funcName, p);
        p
  }

  /** One dropped field: the guarantees of the rest of the drop give those of the whole. */
  lemma PreviewDropStep(data: Table, results: seq<TestRecord>, fields: seq<string>, funcName: string, p: Preview)
    requires fields != [] && fields[0] in Names(data)
    requires PreviewDropPost(RemoveNamed(data, fields[0]), results + [DropRecord(fields[0], funcName)], fields[1..], funcName, p)
    ensures PreviewDropPost(data, results, fields, funcName, p)
  {
    var r := results + [DropRecord(fields[0], funcName)];
    var k := |p.results| - |results| - 1;
    assert p.results[..|results|] == r[..|results|] == results;
    assert p.results[|results|] == r[|results|];
    forall i | |results| <= i < |p.results|
      ensures p.results[i] == DropRecord(fields[i - |results|], funcName)
    {
      if i > |results| {
        assert fields[i - |results|] == fields[1..][i - |r|];
      }
    }
    RemoveThenKeep(data, fields[0], fields[1..][..k]);
    assert [fields[0]] + fields[1..][..k] == fields[..k + 1];
    assert p.data == KeepUnnamed(data, fields[..k + 1]);
    if p.stop.Raised? {
      assert fields[1..][k] == fields[k + 1];
    }
  }

  /**
   * A preview drop that does not raise leaves none of the fields, nor any
   * new label, in the preview table; every other column stays, in its order.
   */
  lemma {:induction false} PreviewDropRemoves(data: Table, results: seq<TestRecord>, fields: seq<string>, funcName: string)
    ensures var p := PreviewDrop(data, results, fields, funcName);
      p.stop.Running? ==>
        (forall f :: f in fields ==> f !in Names(p.data))
        && (forall n :: n in Names(p.data) ==> n in Names(data))
        && p.data == KeepUnnamed(data, fields)
        && (forall c :: c in p.data <==> c in data && c.name !in fields)
    decreases |fields|
  {
    var p := PreviewDrop(data, results, fields, funcName);
    if p.stop.Running? {
      assert fields[..|p.results| - |results|] == fields;
      KeepUnnamedMembers(data, fields);
    }
    if fields != [] && DropColumns(data, fields[0]).Some? {
      var t := DropColumns(data, fields[0]).value;
      PreviewDropRemoves(t, results + [DropRecord(fields[0], funcName)], fields[1..], funcName);
      if p.stop.Running? {
        forall n | n in Names(p.data) ensures n in Names(data) {
          assert n in Names(t);
          var j :| 0 <= j < |t| && Names(t)[j] == n;
          assert t[j] in t;
          var k :| 0 <= k < |data| && data[k] == t[j];
          assert Names(data)[k] == n;
        }
        forall f | f in fields ensures f !in Names(p.data) {
          if f != fields[0] {
            assert f in fields[1..];
          }
        }
      }
    }
  }

  /** Distinct fields that are all in the preview table are all dropped. */
  lemma {:induction false} PreviewDropSucceeds(data: Table, results: seq<TestRecord>, fields: seq<string>, funcName: string)
    requires forall i :: 0 <= i < |fields| ==> fields[i] in Names(data)
    requires forall i, j :: 0 <= i < j < |fields| ==> fields[i] != fields[j]
    ensures PreviewDrop(data, results, fields, funcName).stop.Running?
    decreases |fields|
  {
    if fields != [] {
      var t := DropColumns(data, fields[0]).value;
      forall i | 0 <= i < |fields[1..]| ensures fields[1..][i] in Names(t) {
        assert fields[1..][i] == fields[i + 1] != fields[0];
      }
      PreviewDropSucceeds(t, results + [DropRecord(fields[0], funcName)], fields[1..], funcName);
    }
  }

  /** The record of field `f` previewed on `data`: the field is a column and its fit shows `rec.testResult`. */
  predicate PreviewedAs(data: Table, f: string, funcName: string, className: string, params: map<string, Value>,
                        condition: Option<seq<(string, RawParam)>>, oracles: Oracles, rec: TestRecord) {
    Get(data, f).Some?
    && TestTransformer(Get(data, f).value, f, className, params, oracles).Ok?
    && rec == TestRecord(f, funcName, condition, TestTransformer(Get(data, f).value, f, className, params, oracles).value)
  }

  /** The error the preview of field `f` stops with: 4104 for an absent field, else the fit's detail. */
  predicate FailsAs(data: Table, f: string, funcName: string, className: string, params: map<string, Value>,
                    oracles: Oracles, error: TestError) {
    if Get(data, f).None? then error == TestError("4104", Triple(f, funcName, "Field Name is Not Exist"))
    else
      TestTransformer(Get(data, f).value, f, className, params, oracles).Err?
      && error == TestError("4104", TestTransformer(Get(data, f).value, f, className, params, oracles).error)
  }

  /**
   * The fields loop of `_test_result`: each field must be in the preview
   * table (else 4104 "Field Name is Not Exist"), is fitted and shown
   * (a failure is 4104 with the transformer's detail), and is recorded.
   * The table itself is never changed.
   */
  function PreviewFields(data: Table, results: seq<TestRecord>, fields: seq<string>, funcName: string,
                         className: string, params: map<string, Value>,
                         condition: Option<seq<(string, RawParam)>>, oracles: Oracles): (p: Preview)
    ensures p.data == data
    ensures p.stop.Running? || (p.stop.Errored? && p.stop.error.errorType == "4104")
    ensures PreviewFieldsPost(data, results, fields, funcName, className, params, condition, oracles, p)
    decreases |fields|
  {
    if fields == [] then Preview(data, results, Running)
    else
      match Get(data, fields[0])
      case None => Preview(data, results, Errored(TestError("4104", Triple(fields[0], funcName, "Field Name is Not Exist"))))
      case Some(column) =>
        match TestTransformer(column, fields[0], className, params, oracles)
        case Err(detail) => Preview(data, results, Errored(TestError("4104", detail)))
        case Ok(shown) =>
          var record := TestRecord(fields[0], funcName, condition, shown);
          var p := PreviewFields(data, results + [record], fields[1..], funcName, className, params, condition, oracles);
          PreviewFieldsStep(data, results, fields, funcName, className, params, condition, oracles, p);
          p
  }

  /**
   * What the fields loop guarantees about the preview `p` it reaches: it
   * only appends, one record per field in field order, each the field's
   * shown fit; it records every field unless it stops, and then it stopped
   * on the first field not yet recorded, with that field's error.
   */
  predicate PreviewFieldsPost(data: Table, results: seq<TestRecord>, fields: seq<string>, funcName: string,
                              className: string, params: map<string, Value>,
                              condition: Option<seq<(string, RawParam)>>, oracles: Oracles, p: Preview) {
    |results| <= |p.results| <= |results| + |fields| && p.results[..|results|] == results
    && (p.stop.Running? ==> |p.results| == |results| + |fields|)
    && (forall i :: |results| <= i < |p.results| ==>
          PreviewedAs(data, fields[i - |results|], funcName, className, params, condition, oracles, p.results[i]))
    && (p.stop.Errored? ==>
          |p.results| - |results| < |fields|
          && FailsAs(data, fields[|p.results| - |results|], funcName, className, params, oracles, p.stop.error))
  }

  /** Previewing the first field, then the rest, keeps the guarantee of the fields loop. */
  lemma PreviewFieldsStep(data: Table, results: seq<TestRecord>, fields: seq<string>, funcName: string,
                          className: string, params: map<string, Value>,
                          condition: Option<seq<(string, RawParam)>>, oracles: Oracles, p: Preview)
    requires fields != [] && Get(data, fields[0]).Some?
    requires TestTransformer(Get(data, fields[0]).value, fields[0], className, params, oracles).Ok?
    requires PreviewFieldsPost(data, results + [TestRecord(fields[0], funcName, condition,
                                 TestTransformer(Get(data, fields[0]).value, fields[0], className, params, oracles).value)],
                               fields[1..], funcName, className, params, condition, oracles, p)
    ensures PreviewFieldsPost(data, results, fields, funcName, className, params, condition, oracles, p)
  {
    var record := TestRecord(fields[0], funcName, condition,
                             TestTransformer(Get(data, fields[0]).value, fields[0], className, params, oracles).value);
    var n := |results|;
    assert p.results[..n] == (results + [record])[..n];
    forall i | n <= i < |p.results|
      ensures PreviewedAs(data, fields[i - n], funcName, className, params, condition, oracles, p.results[i])
    {
      if i == n {
        assert p.results[n] == (results + [record])[n];
      } else {
        assert fields[i - n] == fields[1..][i - (n + 1)];
      }
    }
    if p.stop.Errored? {
      assert fields[|p.results| - n] == fields[1..][|p.results| - (n + 1)];
    }
  }

  /**
   * `_test_result`: build the transformer (a failed import raises on
   * `get_params`), apply the condition (a ParameterSyntaxError is 4102,
   * before any field), then preview each field.
   */
  function PreviewTransform(data: Table, results: seq<TestRecord>, req: Request, d: Descriptor, oracles: Oracles)
    : (p: Preview)
    ensures p.data == data
  {
    match oracles.resolve(d)
    case None => Preview(data, results, Raised)
    case Some(defaults) =>
      var applied := if req.condition.Some? then ApplyParams(defaults, req.condition.value, oracles.literalEval)
                     else (defaults, None);
      if applied.1.Some? then Preview(data, results, Errored(TestError("4102", Detail(applied.1.value))))
      else PreviewFields(data, results, FanOut(req.fieldName), d.name, d.functionName, applied.0, req.condition, oracles)
  }

  /** One request of `test_result`; an unknown function id raises DoesNotExist. */
  function PreviewRequest(data: Table, results: seq<TestRecord>, req: Request, catalogue: map<int, Descriptor>,
                          oracles: Oracles): Preview {
    if req.funcPk !in catalogue then Preview(data, results, Raised)
    else
      var d := catalogue[req.funcPk];
      if d.name == "DropColumns" then PreviewDrop(data, results, FanOut(req.fieldName), d.name)
      else PreviewTransform(data, results, req, d, oracles)
  }

  /** The request loop of `test_result`: it stops at the first error or exception. */
  function PreviewRequests(data: Table, results: seq<TestRecord>, reqs: seq<Request>, catalogue: map<int, Descriptor>,
                           oracles: Oracles): (p: Preview)
    ensures |results| <= |p.results| && p.results[..|results|] == results
    decreases |reqs|
  {
    if reqs == [] then Preview(data, results, Running)
    else
      var p := PreviewRequest(data, results, reqs[0], catalogue, oracles);
      if !p.stop.Running? then p
      else
        var q := PreviewRequests(p.data, p.results, reqs[1..], catalogue, oracles);
        assert q.results[..|results|] == p.results[..|results|];
        q
  }

  /**
   * Previewing `a + b` is previewing `a` and, when that is still running,
   * previewing `b` from the table and results it reached.
   */
  lemma {:induction false} PreviewRequestsConcat(data: Table, results: seq<TestRecord>, a: seq<Request>,
                                                 b: seq<Request>, catalogue: map<int, Descriptor>, oracles: Oracles)
    ensures PreviewRequests(data, results, a + b, catalogue, oracles)
         == (var p := PreviewRequests(data, results, a, catalogue, oracles);
             if p.stop.Running? then PreviewRequests(p.data, p.results, b, catalogue, oracles) else p)
    decreases |a|
  {
    if a == [] {
      assert a + b == b;
    } else {
      assert (a + b)[0] == a[0] && (a + b)[1..] == a[1..] + b;
      var p := PreviewRequest(data, results, a[0], catalogue, oracles);
      if p.stop.Running? {
        PreviewRequestsConcat(p.data, p.results, a[1..], b, catalogue, oracles);
      }
    }
  }

  /** Previewing one request is that request. */
  lemma PreviewRequestsOne(data: Table, results: seq<TestRecord>, req: Request, catalogue: map<int, Descriptor>,
                           oracles: Oracles)
    ensures PreviewRequests(data, results, [req], catalogue, oracles) == PreviewRequest(data, results, req, catalogue, oracles)
  {
    assert [req][0] == req && [req][1..] == [];
  }

  /** A parameter error stops the preview with 4102 before any field is looked at. */
  lemma ParameterErrorFirst(data: Table, results: seq<TestRecord>, req: Request, d: Descriptor, oracles: Oracles)
    requires oracles.resolve(d).Some? && req.condition.Some?
    requires ApplyParams(oracles.resolve(d).value, req.condition.value, oracles.literalEval).1.Some?
    ensures PreviewTransform(data, results, req, d, oracles)
         == Preview(data, results, Errored(TestError("4102",
              Detail(ApplyParams(oracles.resolve(d).value, req.condition.value, oracles.literalEval).1.value))))
  {
  }

  /**
   * A field dropped by one request and named by a later transform request
   * makes the preview stop with 4104 "Field Name is Not Exist".
   */
  lemma DroppedFieldIsNotExist(data: Table, field: string, drop: Request, use: Request,
                               catalogue: map<int, Descriptor>, oracles: Oracles)
    requires ',' !in field && field in Names(data)
    requires drop.fieldName == field && use.fieldName == field
    requires drop.funcPk in catalogue && catalogue[drop.funcPk].name == "DropColumns"
    requires use.funcPk in catalogue && catalogue[use.funcPk].name != "DropColumns"
    requires oracles.resolve(catalogue[use.funcPk]).Some? && use.condition.None?
    ensures PreviewRequests(data, [], [drop, use], catalogue, oracles).stop
         == Errored(TestError("4104", Triple(field, catalogue[use.funcPk].name, "Field Name is Not Exist")))
  {
    FanOutVerbatim(field);
    var p := PreviewRequest(data, [], drop, catalogue, oracles);
    PreviewDropRemoves(data, [], [field], "DropColumns");
    assert p.stop.Running?;
    assert field !in Names(p.data);
    assert [drop, use][1..] == [use];
  }

  // ---------------------------------------------------------------------------
  // The preview object
  // ---------------------------------------------------------------------------

  /** The outcome of `test_result`: the results, an error dictionary, or an exception. */
  datatype TestOutcome = Results(records: seq<TestRecord>) | Error(error: TestError) | Exception

  class TestPreprocessor {
    var testData: Table
    var testTotalResult: seq<TestRecord>

    /** The original table is loaded by the caller. */
    constructor (data: Table)
      ensures testData == data && testTotalResult == []
    {
      testData := data;
      testTotalResult := [];
    }

    /** `_test_result_drop_columns`: returns whether `_drop_columns` raised. */
    method TestResultDropColumns(funcName: string, nameField: string) returns (raised: bool)
      modifies this
      ensures var p := PreviewDrop(old(testData), old(testTotalResult), FanOut(nameField), funcName);
        testData == p.data && testTotalResult == p.results && raised == p.stop.Raised?
    {
      var fields := FanOut(nameField);
      var i := 0;
      while i < |fields|
        invariant 0 <= i <= |fields|
        invariant PreviewDrop(testData, testTotalResult, fields[i..], funcName)
               == PreviewDrop(old(testData), old(testTotalResult), fields, funcName)
      {
        assert fields[i..][0] == fields[i] && fields[i..][1..] == fields[i + 1..];
        var dropped := DropColumns(testData, fields[i]);
        if dropped.None? {
          return true;
        }
        testData := dropped.value;
        testTotalResult := testTotalResult + [DropRecord(fields[i], funcName)];
        i := i + 1;
      }
      return false;
    }

    /** `_test_result`: returns the stop reason; the preview table is left as it is. */
    method TestResult(req: Request, d: Descriptor, oracles: Oracles) returns (stop: Stop)
      modifies this`testTotalResult
      ensures testData == old(testData)
      ensures var p := PreviewTransform(old(testData), old(testTotalResult), req, d, oracles);
        testTotalResult == p.results && stop == p.stop
    {
      var e := GetBaseObject(d, oracles);
      if e.None? {
        return Raised;
      }
      var transformer := e.value;
      if req.condition.Some? {
        var err := ChangeTransformerParams(transformer, req.condition.value, oracles.literalEval);
        if err.Some? {
          return Errored(TestError("4102", Detail(err.value.errorDetail)));
        }
      }
      var params := transformer.params;
      var fields := FanOut(req.fieldName);
      ghost var spec := PreviewFields(testData, testTotalResult, fields, d.name, transformer.className, params,
                                      req.condition, oracles);
      var i := 0;
      while i < |fields|
        invariant 0 <= i <= |fields|
        invariant PreviewFields(testData, testTotalResult, fields[i..], d.name, transformer.className, params,
                                req.condition, oracles) == spec
      {
        assert fields[i..][0] == fields[i] && fields[i..][1..] == fields[i + 1..];
        var column := Get(testData, fields[i]);
        if column.None? {
          return Errored(TestError("4104", Triple(fields[i], d.name, "Field Name is Not Exist")));
        }
        var shown := TestTransformer(column.value, fields[i], transformer.className, params, oracles);
        if shown.Err? {
          return Errored(TestError("4104", shown.error));
        }
        testTotalResult := testTotalResult + [TestRecord(fields[i], d.name, req.condition, shown.value)];
        i := i + 1;
      }
      return Running;
    }

    /** `test_result`: the accumulated records, or the first error in place of them. */
    method TestResultAll(reqs: seq<Request>, catalogue: map<int, Descriptor>, oracles: Oracles)
      returns (outcome: TestOutcome)
      modifies this
      ensures var p := PreviewRequests(old(testData), old(testTotalResult), reqs, catalogue, oracles);
        testData == p.data && testTotalResult == p.results
        && (p.stop.Running? ==> outcome == Results(p.results))
        && (p.stop.Errored? ==> outcome == Error(p.stop.error))
        && (p.stop.Raised? ==> outcome == Exception)
    {
      var i := 0;
      while i < |reqs|
        invariant 0 <= i <= |reqs|
        invariant PreviewRequests(testData, testTotalResult, reqs[i..], catalogue, oracles)
               == PreviewRequests(old(testData), old(testTotalResult), reqs, catalogue, oracles)
      {
        assert reqs[i..][0] == reqs[i] && reqs[i..][1..] == reqs[i + 1..];
        var req := reqs[i];
        if req.funcPk !in catalogue {
          return Exception;
        }
        var d := catalogue[req.funcPk];
        if d.name == "DropColumns" {
          var raised := TestResultDropColumns(d.name, req.fieldName);
          if raised {
            return Exception;
          }
        } else {
          var stop := TestResult(req, d, oracles);
          match stop
          case Errored(e) =>
            return Error(e);
          case Raised =>
            return Exception;
          case Running =>
        }
        i := i + 1;
      }
      return Results(testTotalResult);
    }
  }
}
