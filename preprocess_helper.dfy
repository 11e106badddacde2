/**
 * Creation of a preprocessed data set (`preprocess_helper.py`): the
 * validation of a POST request (`InspectUserRequest`) and the fit runner
 * (`PreprocessTask`). Requests are applied in order; each names one or more
 * comma-separated fields. A `DropColumns` request removes them, any other
 * request builds a transformer, fits it on each field in turn, writes the
 * fitted transformer to `T_<pk>_<n>.pickle` and integrates its output into
 * the table. Every field appends one step record to the summary; any failure
 * makes the whole job fail without writing the preprocessed file.
 */
module PreprocessHelper {
  import opened Wrappers
  import opened Strings
  import opened CustomCall
  import opened PreprocessBase

  // ---------------------------------------------------------------------------
  // Requests
  // ---------------------------------------------------------------------------

  /** The key layout of a POST body: its top-level keys in order and the keys of each `request_data` item. */
  datatype PostBody = PostBody(keys: seq<string>, itemKeys: seq<seq<string>>)

  /** One item of `request_data`. */
  datatype Request = Request(funcPk: int, fieldName: string, condition: Option<seq<(string, RawParam)>>)

  const LevelOne: seq<string> := ["original_data_sequence_pk", "request_data"]
  const LevelTwo: seq<string> := ["preprocess_functions_sequence_pk", "field_name"]

  /** The result of a mandatory-key check: True, or the key to report. */
  datatype KeyCheck = AllPresent | MissingKey(key: string)

  /** The elements of `wanted` that `present` lacks, in the order of `wanted`. */
  function Absent(wanted: seq<string>, present: seq<string>): (r: seq<string>)
    ensures forall k :: k in r <==> k in wanted && k !in present
    ensures |r| <= |wanted|
  {
    if wanted == [] then []
    else (if wanted[0] in present then [] else [wanted[0]]) + Absent(wanted[1..], present)
  }

  /** The first element of `wanted` missing from `present` heads `Absent`. */
  lemma {:induction false} AbsentFirst(wanted: seq<string>, present: seq<string>, i: nat)
    requires i < |wanted| && wanted[i] !in present
    requires forall j :: 0 <= j < i ==> wanted[j] in present
    ensures Absent(wanted, present) != [] && Absent(wanted, present)[0] == wanted[i]
    decreases i
  {
    if i > 0 {
      assert wanted[1..][i - 1] == wanted[i];
      forall j | 0 <= j < i - 1 ensures wanted[1..][j] in present {
        assert wanted[1..][j] == wanted[j + 1];
      }
      AbsentFirst(wanted[1..], present, i - 1);
    }
  }

  lemma {:induction false} AbsentEmpty(wanted: seq<string>, present: seq<string>)
    requires forall k :: k in wanted ==> k in present
    ensures Absent(wanted, present) == []
  {
    if wanted != [] {
      assert wanted[0] in wanted;
      AbsentEmpty(wanted[1..], present);
    }
  }

  /** Python's `"".join(parts)`. */
  function Concat(parts: seq<string>): string {
    if parts == [] then "" else parts[0] + Concat(parts[1..])
  }

  /** The first key of `wanted` missing from some item, scanning the items in order. */
  function FirstMissingItemKey(items: seq<seq<string>>, wanted: seq<string>): (r: Option<string>)
    ensures r.None? <==> forall i :: 0 <= i < |items| ==> forall k :: k in wanted ==> k in items[i]
    ensures r.Some? ==> r.value in wanted
    ensures forall i :: (0 <= i < |items| && Absent(wanted, items[i]) != []
      && (forall j :: 0 <= j < i ==> Absent(wanted, items[j]) == [])) ==> r == Some(Absent(wanted, items[i])[0])
  {
    if items == [] then None
    else
      var absent := Absent(wanted, items[0]);
      if absent != [] then
        FirstItemHere(items, wanted);
        Some(absent[0])
      else
        var r := FirstMissingItemKey(items[1..], wanted);
        CompleteItemsShift(items, wanted);
        FirstItemShift(items, wanted, r);
        r
  }

  /** An item that lacks a key decides the answer. */
  lemma FirstItemHere(items: seq<seq<string>>, wanted: seq<string>)
    requires items != [] && Absent(wanted, items[0]) != []
    ensures Absent(wanted, items[0])[0] in wanted && Absent(wanted, items[0])[0] !in items[0]
    ensures forall i :: (0 <= i < |items| && Absent(wanted, items[i]) != []
      && (forall j :: 0 <= j < i ==> Absent(wanted, items[j]) == [])) ==> i == 0
  {
    assert Absent(wanted, items[0])[0] in Absent(wanted, items[0]);
  }

  /** When the first item lacks nothing, all items are complete exactly when the rest are. */
  lemma CompleteItemsShift(items: seq<seq<string>>, wanted: seq<string>)
    requires items != [] && Absent(wanted, items[0]) == []
    ensures (forall i :: 0 <= i < |items| ==> forall k :: k in wanted ==> k in items[i])
      <==> forall i :: 0 <= i < |items[1..]| ==> forall k :: k in wanted ==> k in items[1..][i]
  {
    assert forall i :: 1 <= i < |items| ==> items[i] == items[1..][i - 1];
  }

  /** When the first item lacks nothing, the first incomplete item of the rest is the first of all. */
  lemma FirstItemShift(items: seq<seq<string>>, wanted: seq<string>, r: Option<string>)
    requires items != [] && Absent(wanted, items[0]) == []
    requires forall i :: (0 <= i < |items[1..]| && Absent(wanted, items[1..][i]) != []
      && (forall j :: 0 <= j < i ==> Absent(wanted, items[1..][j]) == [])) ==> r == Some(Absent(wanted, items[1..][i])[0])
    ensures forall i :: (0 <= i < |items| && Absent(wanted, items[i]) != []
      && (forall j :: 0 <= j < i ==> Absent(wanted, items[j]) == [])) ==> r == Some(Absent(wanted, items[i])[0])
  {
    forall i | 0 <= i < |items| && Absent(wanted, items[i]) != []
      && (forall j :: 0 <= j < i ==> Absent(wanted, items[j]) == [])
      ensures r == Some(Absent(wanted, items[i])[0])
    {
      assert items[i] == items[1..][i - 1];
      forall j | 0 <= j < i - 1 ensures Absent(wanted, items[1..][j]) == [] {
        assert items[1..][j] == items[j + 1];
      }
    }
  }

  /**
   * `_mandatory_key_exists_preprocessed_post`. The top-level keys must be
   * exactly `LevelOne`, in that order; otherwise the report is the missing
   * ones concatenated (empty when they are all there but reordered or joined
   * by extra keys). Then every item must hold both `LevelTwo` keys.
   */
  function MandatoryKeyExistsPreprocessedPost(body: PostBody): (r: KeyCheck)
    ensures r == AllPresent <==>
      body.keys == LevelOne
      && forall i :: 0 <= i < |body.itemKeys| ==> forall k :: k in LevelTwo ==> k in body.itemKeys[i]
    ensures r.MissingKey? && body.keys == LevelOne ==> r.key in LevelTwo
    ensures body.keys == LevelOne ==>
      forall i :: (0 <= i < |body.itemKeys| && Absent(LevelTwo, body.itemKeys[i]) != []
        && (forall j :: 0 <= j < i ==> Absent(LevelTwo, body.itemKeys[j]) == [])) ==>
          r == MissingKey(Absent(LevelTwo, body.itemKeys[i])[0])
  {
    if body.keys != LevelOne then MissingKey(Concat(Absent(LevelOne, body.keys)))
    else
      match FirstMissingItemKey(body.itemKeys, LevelTwo)
      case None => AllPresent
      case Some(k) => MissingKey(k)
  }

  /** A body whose keys are all there but in the wrong order or with extras is reported with the empty key. */
  lemma ReorderedKeysReportEmpty(body: PostBody)
    requires body.keys != LevelOne
    requires forall k :: k in LevelOne ==> k in body.keys
    ensures MandatoryKeyExistsPreprocessedPost(body) == MissingKey("")
  {
    assert Absent(LevelOne, body.keys) == [];
  }

  /** A body lacking only "request_data" is reported as "request_data". */
  lemma MissingTopLevelKeyReported(body: PostBody)
    requires "original_data_sequence_pk" in body.keys && "request_data" !in body.keys
    ensures MandatoryKeyExistsPreprocessedPost(body) == MissingKey("request_data")
  {
    assert Absent(LevelOne, body.keys) == ["request_data"];
    assert Concat(["request_data"]) == "request_data";
  }

  /**
   * The fan-out of a field name: a name with a comma is split on commas and
   * each piece stripped; a name without a comma is used verbatim.
   */
  function FanOut(fieldName: string): (fields: seq<string>)
    ensures |fields| >= 1
  {
    var pieces := Split(fieldName, ',');
    if |pieces| != 1 then seq(|pieces|, i requires 0 <= i < |pieces| => Strip(pieces[i]))
    else [fieldName]
  }

  /** A comma-free name is taken as it is, surrounding blanks included. */
  lemma FanOutVerbatim(fieldName: string)
    requires ',' !in fieldName
    ensures FanOut(fieldName) == [fieldName]
  {
    SplitCount(fieldName, ',');
    CountPositive(fieldName, ',');
  }

  /**
   * A name with commas yields one field per comma-separated piece, the
   * piece stripped; no field holds a comma or surrounding white space, and
   * when no piece had any, joining the fields with commas gives the name back.
   */
  lemma FanOutSplits(fieldName: string)
    requires ',' in fieldName
    ensures |FanOut(fieldName)| == Count(fieldName, ',') + 1 == |Split(fieldName, ',')|
    ensures forall i :: 0 <= i < |FanOut(fieldName)| ==> FanOut(fieldName)[i] == Strip(Split(fieldName, ',')[i])
    ensures forall i :: 0 <= i < |FanOut(fieldName)| ==>
      ',' !in FanOut(fieldName)[i]
      && (FanOut(fieldName)[i] == [] || (!IsSpace(FanOut(fieldName)[i][0]) && !IsSpace(FanOut(fieldName)[i][|FanOut(fieldName)[i]| - 1])))
    ensures (forall i :: 0 <= i < |FanOut(fieldName)| ==> FanOut(fieldName)[i] == Split(fieldName, ',')[i])
        ==> Join(FanOut(fieldName), ',') == fieldName
  {
    SplitCount(fieldName, ',');
    CountPositive(fieldName, ',');
    var pieces := Split(fieldName, ',');
    var fields := FanOut(fieldName);
    assert |pieces| != 1 && |fields| == |pieces|;
    forall i | 0 <= i < |fields| ensures fields[i] == Strip(pieces[i]) && ',' !in fields[i] {
      StripKeepsOut(pieces[i], ',');
    }
    if forall i :: 0 <= i < |fields| ==> fields[i] == pieces[i] {
      assert fields == pieces;
      JoinSplit(fieldName, ',');
    }
  }

  /** What the data-set lookup of `_check_request_pk` finds. */
  datatype DbLookup =
    | DbFound(columns: seq<string>)  // the loaded table's column labels
    | DbNotFound                     // an unknown data or function id: Http404 is raised
    | DbFileMissing(path: string)    // the registered file is gone

  /** `check_post_mode`'s outcome: True, an error dictionary, or Http404. */
  datatype Verdict = Valid | Invalid(errorType: string, errorMsg: string) | NotFound

  /** Every field a request names, once fanned out, is a column of the table. */
  predicate FieldsPresent(columns: seq<string>, fieldName: string) {
    forall f :: f in FanOut(fieldName) ==> f in columns
  }

  /** The first fanned-out field, over the requests in order, that the table lacks. */
  function FirstAbsentField(columns: seq<string>, requests: seq<Request>): (r: Option<string>)
    ensures r.None? <==> forall i :: 0 <= i < |requests| ==> FieldsPresent(columns, requests[i].fieldName)
    ensures r.Some? ==>
      r.value !in columns && exists i :: 0 <= i < |requests| && r.value in FanOut(requests[i].fieldName)
    ensures forall i :: (0 <= i < |requests| && Absent(FanOut(requests[i].fieldName), columns) != []
      && (forall j :: 0 <= j < i ==> FieldsPresent(columns, requests[j].fieldName))) ==>
        r == Some(Absent(FanOut(requests[i].fieldName), columns)[0])
  {
    if requests == [] then None
    else
      var absent := Absent(FanOut(requests[0].fieldName), columns);
      if absent != [] then
        FirstRequestHere(columns, requests);
        Some(absent[0])
      else
        var r := FirstAbsentField(columns, requests[1..]);
        AllPresentShift(columns, requests);
        SomeAbsentShift(columns, requests, r);
        FirstRequestShift(columns, requests, r);
        r
  }

  /** A request with an absent field decides the answer. */
  lemma FirstRequestHere(columns: seq<string>, requests: seq<Request>)
    requires requests != [] && Absent(FanOut(requests[0].fieldName), columns) != []
    ensures var absent := Absent(FanOut(requests[0].fieldName), columns);
      absent[0] !in columns && absent[0] in FanOut(requests[0].fieldName)
      && !FieldsPresent(columns, requests[0].fieldName)
    ensures forall i :: (0 <= i < |requests| && Absent(FanOut(requests[i].fieldName), columns) != []
      && (forall j :: 0 <= j < i ==> FieldsPresent(columns, requests[j].fieldName))) ==> i == 0
  {
    var absent := Absent(FanOut(requests[0].fieldName), columns);
    assert absent[0] in absent;
  }

  /** When the first request's fields are all present, all requests are complete exactly when the rest are. */
  lemma AllPresentShift(columns: seq<string>, requests: seq<Request>)
    requires requests != [] && Absent(FanOut(requests[0].fieldName), columns) == []
    ensures (forall i :: 0 <= i < |requests| ==> FieldsPresent(columns, requests[i].fieldName))
      <==> forall i :: 0 <= i < |requests[1..]| ==> FieldsPresent(columns, requests[1..][i].fieldName)
  {
    assert forall i :: 1 <= i < |requests| ==> requests[i] == requests[1..][i - 1];
  }

  /** A field absent from a later request is absent from some request. */
  lemma SomeAbsentShift(columns: seq<string>, requests: seq<Request>, r: Option<string>)
    requires requests != []
    requires r.Some? ==>
      r.value !in columns && exists i :: 0 <= i < |requests[1..]| && r.value in FanOut(requests[1..][i].fieldName)
    ensures r.Some? ==>
      r.value !in columns && exists i :: 0 <= i < |requests| && r.value in FanOut(requests[i].fieldName)
  {
    if r.Some? {
      var i :| 0 <= i < |requests[1..]| && r.value in FanOut(requests[1..][i].fieldName);
      assert requests[1..][i] == requests[i + 1];
    }
  }

  /** When the first request's fields are all present, the first absent field of the rest is the first of all. */
  lemma FirstRequestShift(columns: seq<string>, requests: seq<Request>, r: Option<string>)
    requires requests != [] && Absent(FanOut(requests[0].fieldName), columns) == []
    requires forall i :: (0 <= i < |requests[1..]| && Absent(FanOut(requests[1..][i].fieldName), columns) != []
      && (forall j :: 0 <= j < i ==> FieldsPresent(columns, requests[1..][j].fieldName))) ==>
        r == Some(Absent(FanOut(requests[1..][i].fieldName), columns)[0])
    ensures forall i :: (0 <= i < |requests| && Absent(FanOut(requests[i].fieldName), columns) != []
      && (forall j :: 0 <= j < i ==> FieldsPresent(columns, requests[j].fieldName))) ==>
        r == Some(Absent(FanOut(requests[i].fieldName), columns)[0])
  {
    forall i | (0 <= i < |requests| && Absent(FanOut(requests[i].fieldName), columns) != []
      && (forall j :: 0 <= j < i ==> FieldsPresent(columns, requests[j].fieldName)))
      ensures r == Some(Absent(FanOut(requests[i].fieldName), columns)[0])
    {
      assert requests[i] == requests[1..][i - 1];
      forall j | 0 <= j < i - 1 ensures FieldsPresent(columns, requests[1..][j].fieldName) {
        assert requests[1..][j] == requests[j + 1];
      }
    }
  }

  /** The field loop of `check_post_mode`: nested loops with an early return. */
  method CheckFields(columns: seq<string>, requests: seq<Request>) returns (r: Option<string>)
    ensures r == FirstAbsentField(columns, requests)
  {
    var i := 0;
    while i < |requests|
      invariant 0 <= i <= |requests|
      invariant FirstAbsentField(columns, requests) == FirstAbsentField(columns, requests[i..])
    {
      assert requests[i..][0] == requests[i] && requests[i..][1..] == requests[i + 1..];
      var fields := FanOut(requests[i].fieldName);
      var j := 0;
      while j < |fields|
        invariant 0 <= j <= |fields|
        invariant Absent(fields, columns) == Absent(fields[j..], columns)
      {
        assert fields[j..][0] == fields[j] && fields[j..][1..] == fields[j + 1..];
        if fields[j] !in columns {
          return Some(fields[j]);
        }
        j := j + 1;
      }
      i := i + 1;
    }
    return None;
  }

  /**
   * `check_post_mode`: 4101 for a missing mandatory key, then Http404 or
   * 4004 from the data-set lookup, then 4102 for the first absent field.
   */
  method CheckPostMode(body: PostBody, requests: seq<Request>, db: DbLookup) returns (v: Verdict)
    ensures MandatoryKeyExistsPreprocessedPost(body).MissingKey? ==>
      v == Invalid("4101", MandatoryKeyExistsPreprocessedPost(body).key)
    ensures MandatoryKeyExistsPreprocessedPost(body) == AllPresent && db.DbNotFound? ==> v == NotFound
    ensures MandatoryKeyExistsPreprocessedPost(body) == AllPresent && db.DbFileMissing? ==>
      v == Invalid("4004", db.path)
    ensures MandatoryKeyExistsPreprocessedPost(body) == AllPresent && db.DbFound? ==>
      (v == Valid <==> forall i :: 0 <= i < |requests| ==> FieldsPresent(db.columns, requests[i].fieldName))
    ensures MandatoryKeyExistsPreprocessedPost(body) == AllPresent && db.DbFound? && v != Valid ==>
      v == Invalid("4102", FirstAbsentField(db.columns, requests).value)
  {
    match MandatoryKeyExistsPreprocessedPost(body)
    case MissingKey(k) =>
      return Invalid("4101", k);
    case AllPresent =>
      match db
      case DbNotFound =>
        return NotFound;
      case DbFileMissing(p) =>
        return Invalid("4004", p);
      case DbFound(columns) =>
        var absent := CheckFields(columns, requests);
        if absent.Some? {
          return Invalid("4102", absent.value);
        }
        return Valid;
  }

  // ---------------------------------------------------------------------------
  // Integrating a transformer's output
  // ---------------------------------------------------------------------------

  /** Whether the branch taken for this output reads the transformer's class vocabulary. */
  predicate NeedsClasses(className: string, changed: Output) {
    changed.Vector? || changed.width != 1 || className == "Binarizer" || className == "OrdinalEncoder"
  }

  /** The appended columns `<field>_0 .. <field>_{w-1}` of an expanded output. */
  function Expanded(field: string, width: nat, rows: seq<seq<Cell>>): (cols: Table)
    ensures Names(cols) == NewColumns(field, width)
  {
    var names := NewColumns(field, width);
    var cols := seq(width, i requires 0 <= i < width => Column(names[i], MatrixColumn(rows, i)));
    assert Names(cols) == names;
    cols
  }

  /**
   * The integration step of `_train_data_transformer` (and of the replay):
   * a rank-1 output overwrites the column; a width-1 output overwrites it
   * unless the transformer is a Normalizer; any other output is appended as
   * new columns and the source column is removed.
   */
  function Integrate(data: Table, field: string, className: string, changed: Output): Table {
    if changed.Vector? then SetColumn(data, field, changed.values)
    else if changed.width == 1 then
      if className == "Normalizer" then data else SetColumn(data, field, MatrixColumn(changed.rows, 0))
    else RemoveNamed(data + Expanded(field, changed.width, changed.rows), field)
  }

  /** Width-1 and rank-1 outputs overwrite the column in place; a Normalizer leaves the table as it is. */
  lemma IntegrateInPlace(data: Table, field: string, className: string, changed: Output)
    requires field in Names(data)
    requires changed.Vector? || changed.width == 1
    ensures className == "Normalizer" && !changed.Vector? ==> Integrate(data, field, className, changed) == data
    ensures !(className == "Normalizer" && !changed.Vector?) ==>
      var r := Integrate(data, field, className, changed);
      Names(r) == Names(data)
      && Get(r, field) == Some(if changed.Vector? then changed.values else MatrixColumn(changed.rows, 0))
      && forall i :: 0 <= i < |data| && data[i].name != field ==> r[i] == data[i]
  {
    if changed.Vector? {
      SetColumnInPlace(data, field, changed.values);
    } else if className != "Normalizer" {
      SetColumnInPlace(data, field, MatrixColumn(changed.rows, 0));
    }
  }

  /** Any other output puts `<field>_i` after all existing columns and then removes the source column. */
  lemma IntegrateExpands(data: Table, field: string, className: string, changed: Output)
    requires !changed.Vector? && changed.width != 1
    ensures Integrate(data, field, className, changed)
         == RemoveNamed(data, field) + Expanded(field, changed.width, changed.rows)
    ensures Names(Integrate(data, field, className, changed))
         == Names(RemoveNamed(data, field)) + NewColumns(field, changed.width)
    ensures field !in Names(Integrate(data, field, className, changed))
  {
    var cols := Expanded(field, changed.width, changed.rows);
    RemoveNamedAppend(data, cols, field);
    ExpandedAvoidsField(field, changed.width, changed.rows);
    NamesAppend(RemoveNamed(data, field), cols);
    RemoveNamedFacts(data, field);
  }

  lemma NamesAppend(a: Table, b: Table)
    ensures Names(a + b) == Names(a) + Names(b)
  {
  }

  /** The expanded columns never carry the source label, so removing it leaves them alone. */
  lemma ExpandedAvoidsField(field: string, width: nat, rows: seq<seq<Cell>>)
    ensures field !in Names(Expanded(field, width, rows))
    ensures RemoveNamed(Expanded(field, width, rows), field) == Expanded(field, width, rows)
  {
    var cols := Expanded(field, width, rows);
    NewColumnsDistinct(field, width);
    forall i | 0 <= i < |cols| ensures cols[i].name != field {
      assert Names(cols)[i] == cols[i].name;
    }
    RemoveAbsent(cols, field);
  }

  /** A fitted field: the new table, the transformer to store, and the vocabulary to record. */
  datatype Fit = Fit(data: Table, artifact: Artifact, classes: Option<Classes>)

  /**
   * `_train_data_transformer`: fit on the field's column, densify the output
   * and integrate it. None stands for the `False` returned when anything
   * raises: an absent field, a failing fit, or a vocabulary the branch reads
   * but the transformer does not have.
   */
  function TrainDataTransformer(data: Table, field: string, className: string, params: map<string, Value>,
                                oracles: Oracles): (r: Option<Fit>)
    ensures r.Some? ==> field in Names(data)
    ensures r.Some? ==> r.value.artifact == Artifact(className, params, Get(data, field).value)
    ensures field !in Names(data) ==> r.None?
    ensures field in Names(data) ==>
      var outcome := oracles.fitTransform(className, params, Get(data, field).value);
      (r.None? <==> outcome.FitFailed? || (NeedsClasses(className, ToArray(outcome.output)) && outcome.classes.None?))
    ensures r.Some? ==>
      var outcome := oracles.fitTransform(className, params, Get(data, field).value);
      outcome.Fitted?
      && r.value.data == Integrate(data, field, className, ToArray(outcome.output))
      && r.value.classes == (if NeedsClasses(className, ToArray(outcome.output)) then outcome.classes else None)
  {
    match Get(data, field)
    case None => None
    case Some(column) =>
      match oracles.fitTransform(className, params, column)
      case FitFailed(_) => None
      case Fitted(out, vocab) =>
        var changed := ToArray(out);
        if NeedsClasses(className, changed) then
          if vocab.None? then None
          else Some(Fit(Integrate(data, field, className, changed), Artifact(className, params, column), vocab))
        else Some(Fit(Integrate(data, field, className, changed), Artifact(className, params, column), None))
  }

  /** A Normalizer with a width-1 output leaves the table alone and records no classes. */
  lemma NormalizerSkipped(data: Table, field: string, params: map<string, Value>, oracles: Oracles)
    requires field in Names(data)
    requires oracles.fitTransform("Normalizer", params, Get(data, field).value).Fitted?
    requires !oracles.fitTransform("Normalizer", params, Get(data, field).value).output.Vector?
    requires oracles.fitTransform("Normalizer", params, Get(data, field).value).output.width == 1
    ensures TrainDataTransformer(data, field, "Normalizer", params, oracles).Some?
    ensures TrainDataTransformer(data, field, "Normalizer", params, oracles).value.data == data
    ensures TrainDataTransformer(data, field, "Normalizer", params, oracles).value.classes.None?
  {
  }

  // ---------------------------------------------------------------------------
  // The fit runner
  // ---------------------------------------------------------------------------

  /** An entry of `real_final_list`: the original and encoded classes are recorded together or not at all. */
  datatype StepRecord = StepRecord(
    fieldName: string,
    functionName: string,
    functionPk: int,
    fileName: Option<string>,
    classes: Option<Classes>)

  /** The collaborators of a run: the result directories, the function catalogue and the oracles. */
  datatype Env = Env(cfg: PathConfig, catalogue: map<int, Descriptor>, oracles: Oracles)

  const TransformerBase: string := "PREPROCESS_TRANSFORMER_DIR"

  /** The file name of the n-th transformer of preprocessed data set `pk`. */
  function ArtifactName(pk: int, n: nat): string {
    "T_" + IntToString(pk) + "_" + NatToString(n) + ".pickle"
  }

  /** The file name of preprocessed data set `pk`. */
  function OutputName(pk: int): string {
    "P_" + IntToString(pk) + ".json"
  }

  /** The records a drop of `fields` appends. */
  function DropRecords(fields: seq<string>, funcPk: int): (rs: seq<StepRecord>)
    ensures |rs| == |fields|
    ensures forall i :: 0 <= i < |fields| ==>
      rs[i] == StepRecord(fields[i], "DropColumns", funcPk, None, None)
  {
    seq(|fields|, i requires 0 <= i < |fields| => StepRecord(fields[i], "DropColumns", funcPk, None, None))
  }

  /** The table and summary after a drop, and whether a drop raised. */
  datatype Dropped = Dropped(data: Table, records: seq<StepRecord>, failed: bool)

  /**
   * What the drop loop guarantees about the result `d` it reaches: one drop
   * record per field dropped, in field order; the table is the input without
   * the columns of the fields dropped; and when it fails, the next field is
   * not a column of that table.
   */
  predicate DropFieldsPost(data: Table, records: seq<StepRecord>, fields: seq<string>, funcPk: int, d: Dropped) {
    |records| <= |d.records| <= |records| + |fields|
    && (!d.failed ==> |d.records| == |records| + |fields|)
    && d.records == records + DropRecords(fields[..|d.records| - |records|], funcPk)
    && (d.failed ==> |d.records| - |records| < |fields| && fields[|d.records| - |records|] !in Names(d.data))
    && d.data == KeepUnnamed(data, fields[..|d.records| - |records|])
  }

  /** `_task_drop_columns`: drop each field in turn, recording each; an absent field raises. */
  function DropFields(data: Table, records: seq<StepRecord>, fields: seq<string>, funcPk: int): (d: Dropped)
    ensures DropFieldsPost(data, records, fields, funcPk, d)
    decreases |fields|
  {
    if fields == [] then KeepUnnamedNone(data); Dropped(data, records, false)
    else
      match DropColumns(data, fields[0])
      case None => KeepUnnamedNone(data); Dropped(data, records, true)
      case Some(t) =>
        var d := DropFields(t, records + [StepRecord(fields[0], "DropColumns", funcPk, None, None)], fields[1..], funcPk);
        DropFieldsStep(data, records, fields, funcPk, d);
        d
  }

  /** Dropping the first field, then the rest, keeps the guarantee of the drop loop. */
  lemma DropFieldsStep(data: Table, records: seq<StepRecord>, fields: seq<string>, funcPk: int, d: Dropped)
    requires fields != [] && fields[0] in Names(data)
    requires DropFieldsPost(RemoveNamed(data, fields[0]), records + [StepRecord(fields[0], "DropColumns", funcPk, None, None)],
                            fields[1..], funcPk, d)
    ensures DropFieldsPost(data, records, fields, funcPk, d)
  {
    var record := StepRecord(fields[0], "DropColumns", funcPk, None, None);
    var k := |d.records| - |records| - 1;
    assert d.records == records + [record] + DropRecords(fields[1..][..k], funcPk);
    DropRecordsCons(fields, funcPk, k);
    assert d.records == records + DropRecords(fields[..k + 1], funcPk);
    RemoveThenKeep(data, fields[0], fields[1..][..k]);
    assert [fields[0]] + fields[1..][..k] == fields[..k + 1];
    assert d.data == KeepUnnamed(data, fields[..k + 1]);
    if d.failed {
      assert fields[1..][k] == fields[k + 1];
    }
  }

  lemma DropRecordsCons(fields: seq<string>, funcPk: int, k: nat)
    requires k < |fields|
    ensures [StepRecord(fields[0], "DropColumns", funcPk, None, None)] + DropRecords(fields[1..][..k], funcPk)
         == DropRecords(fields[..k + 1], funcPk)
  {
  }

  /**
   * A drop that does not raise records every field, and leaves none of
   * them, nor any label the table did not have, in the table; every other
   * column stays, in its order.
   */
  lemma {:induction false} DropFieldsRemoves(data: Table, records: seq<StepRecord>, fields: seq<string>, funcPk: int)
    ensures var d := DropFields(data, records, fields, funcPk);
      !d.failed ==>
        d.records == records + DropRecords(fields, funcPk)
        && (forall f :: f in fields ==> f !in Names(d.data))
        && (forall n :: n in Names(d.data) ==> n in Names(data))
        && d.data == KeepUnnamed(data, fields)
        && (forall c :: c in d.data <==> c in data && c.name !in fields)
    decreases |fields|
  {
    var d := DropFields(data, records, fields, funcPk);
    if !d.failed {
      assert fields[..|d.records| - |records|] == fields;
      KeepUnnamedMembers(data, fields);
    }
    if fields != [] && DropColumns(data, fields[0]).Some? {
      var t := DropColumns(data, fields[0]).value;
      var record := StepRecord(fields[0], "DropColumns", funcPk, None, None);
      DropFieldsRemoves(t, records + [record], fields[1..], funcPk);
      if !d.failed {
        assert fields[..|fields|] == fields;
        forall n | n in Names(d.data) ensures n in Names(data) {
          assert n in Names(t);
          var j :| 0 <= j < |t| && Names(t)[j] == n;
          assert t[j] in t;
          var k :| 0 <= k < |data| && data[k] == t[j];
          assert Names(data)[k] == n;
        }
        forall f | f in fields ensures f !in Names(d.data) {
          if f != fields[0] {
            assert f in fields[1..];
          }
        }
      }
    }
  }

  /** Distinct fields that are all columns are all dropped. */
  lemma {:induction false} DropFieldsSucceeds(data: Table, records: seq<StepRecord>, fields: seq<string>, funcPk: int)
    requires forall i :: 0 <= i < |fields| ==> fields[i] in Names(data)
    requires forall i, j :: 0 <= i < j < |fields| ==> fields[i] != fields[j]
    ensures !DropFields(data, records, fields, funcPk).failed
    decreases |fields|
  {
    if fields != [] {
      var t := DropColumns(data, fields[0]).value;
      var record := StepRecord(fields[0], "DropColumns", funcPk, None, None);
      forall i | 0 <= i < |fields[1..]| ensures fields[1..][i] in Names(t) {
        assert fields[1..][i] == fields[i + 1] != fields[0];
      }
      DropFieldsSucceeds(t, records + [record], fields[1..], funcPk);
    }
  }

  /** The fields a summary names, in record order. */
  function FieldNames(records: seq<StepRecord>): (names: seq<string>)
    ensures |names| == |records|
    ensures forall i :: 0 <= i < |records| ==> names[i] == records[i].fieldName
  {
    seq(|records|, i requires 0 <= i < |records| => records[i].fieldName)
  }

  /** The run state threaded through the requests: table, artifact counter, summary and pickle store. */
  datatype FitState = FitState(data: Table, saveN: nat, records: seq<StepRecord>, store: map<string, Artifact>)

  /** The state reached, and whether the job failed there. */
  datatype Progress = Progress(state: FitState, failed: bool)

  /** The state after fitting one field: take its table, count it, store its transformer and record it. */
  function Advance(s: FitState, field: string, funcName: string, funcPk: int, fit: Fit, pk: int, cfg: PathConfig)
    : (s': FitState)
    ensures s'.data == fit.data
    ensures s'.saveN == s.saveN + 1
    ensures s'.records == s.records + [StepRecord(field, funcName, funcPk, Some(ArtifactName(pk, s'.saveN)), fit.classes)]
    ensures s'.store == s.store[PicklePath(cfg, TransformerBase, ArtifactName(pk, s'.saveN)) := fit.artifact]
  {
    var n := s.saveN + 1;
    var name := ArtifactName(pk, n);
    FitState(fit.data, n, s.records + [StepRecord(field, funcName, funcPk, Some(name), fit.classes)],
             DumpPickle(s.store, cfg, TransformerBase, name, fit.artifact).0)
  }

  /**
   * What the fields loop guarantees about the progress `p` it reaches from
   * `s`: it only appends to the summary, one record per fitted field in field
   * order, each naming the function and the next artifact file; it counts
   * every artifact and stores it; and when it fails, it failed on the first
   * field not yet recorded, whose fit returned `False`.
   */
  predicate FitFieldsPost(s: FitState, fields: seq<string>, className: string, funcName: string, funcPk: int,
                          params: map<string, Value>, pk: int, env: Env, p: Progress) {
    |s.records| <= |p.state.records| <= |s.records| + |fields|
    && p.state.records[..|s.records|] == s.records
    && p.state.saveN == s.saveN + (|p.state.records| - |s.records|)
    && (!p.failed ==> |p.state.records| == |s.records| + |fields|)
    && s.store.Keys <= p.state.store.Keys
    && FitRecords(p.state.records[|s.records|..], fields, funcName, funcPk, pk, s.saveN)
    && (p.failed ==>
          |p.state.records| - |s.records| < |fields|
          && TrainDataTransformer(p.state.data, fields[|p.state.records| - |s.records|], className, params,
                                  env.oracles).None?)
  }

  /** The fields loop of `_task_result`: fit, count, store and record each field in turn. */
  function FitFields(s: FitState, fields: seq<string>, className: string, funcName: string, funcPk: int,
                     params: map<string, Value>, pk: int, env: Env): (p: Progress)
    ensures FitFieldsPost(s, fields, className, funcName, funcPk, params, pk, env, p)
    decreases |fields|
  {
    if fields == [] then Progress(s, false)
    else
      match TrainDataTransformer(s.data, fields[0], className, params, env.oracles)
      case None => Progress(s, true)
      case Some(fit) =>
        var p := FitFields(Advance(s, fields[0], funcName, funcPk, fit, pk, env.cfg), fields[1..],
                           className, funcName, funcPk, params, pk, env);
        FitFieldsStep(s, fields, className, funcName, funcPk, params, pk, env, fit, p);
        p
  }

  /** Fitting the first field, then the rest, keeps the guarantee of the fields loop. */
  lemma FitFieldsStep(s: FitState, fields: seq<string>, className: string, funcName: string, funcPk: int,
                      params: map<string, Value>, pk: int, env: Env, fit: Fit, p: Progress)
    requires fields != []
    requires FitFieldsPost(Advance(s, fields[0], funcName, funcPk, fit, pk, env.cfg), fields[1..],
                           className, funcName, funcPk, params, pk, env, p)
    ensures FitFieldsPost(s, fields, className, funcName, funcPk, params, pk, env, p)
  {
    var s' := Advance(s, fields[0], funcName, funcPk, fit, pk, env.cfg);
    assert p.state.records[..|s.records|] == s'.records[..|s.records|];
    FitRecordsCons(s.records, s'.records[|s.records|], p.state.records, fields, funcName, funcPk, pk, s.saveN);
    if p.failed {
      assert fields[1..][|p.state.records| - |s'.records|] == fields[|p.state.records| - |s.records|];
    }
  }

  /**
   * Fitting one field: the loop fails exactly when that field's fit does,
   * and otherwise moves to the state Advance gives, whose table is the one
   * the fit returned.
   */
  lemma FitFieldsOne(s: FitState, field: string, className: string, funcName: string, funcPk: int,
                     params: map<string, Value>, pk: int, env: Env)
    ensures var p := FitFields(s, [field], className, funcName, funcPk, params, pk, env);
      var fit := TrainDataTransformer(s.data, field, className, params, env.oracles);
      (p.failed <==> fit.None?)
      && (fit.None? ==> p.state == s)
      && (fit.Some? ==>
            p.state == Advance(s, field, funcName, funcPk, fit.value, pk, env.cfg)
            && p.state.data == fit.value.data)
  {
    assert [field][0] == field && [field][1..] == [];
  }

  /**
   * The fields loop over `a + b` is the loop over `a` followed, when that
   * did not fail, by the loop over `b` from the state it reached.
   */
  lemma {:induction false} FitFieldsConcat(s: FitState, a: seq<string>, b: seq<string>, className: string,
                                           funcName: string, funcPk: int, params: map<string, Value>, pk: int, env: Env)
    ensures FitFields(s, a + b, className, funcName, funcPk, params, pk, env)
         == (var p := FitFields(s, a, className, funcName, funcPk, params, pk, env);
             if p.failed then p else FitFields(p.state, b, className, funcName, funcPk, params, pk, env))
    decreases |a|
  {
    if a == [] {
      assert a + b == b;
    } else {
      assert (a + b)[0] == a[0] && (a + b)[1..] == a[1..] + b;
      match TrainDataTransformer(s.data, a[0], className, params, env.oracles)
      case None =>
      case Some(fit) =>
        FitFieldsConcat(Advance(s, a[0], funcName, funcPk, fit, pk, env.cfg), a[1..], b, className, funcName,
                        funcPk, params, pk, env);
    }
  }

  /**
   * The records a fit loop appends: one per field, in field order, each
   * naming the function and the next artifact file after `saveN`.
   */
  predicate FitRecords(added: seq<StepRecord>, fields: seq<string>, funcName: string, funcPk: int, pk: int, saveN: nat) {
    |added| <= |fields|
    && forall i :: 0 <= i < |added| ==>
      added[i].fieldName == fields[i] && added[i].functionName == funcName && added[i].functionPk == funcPk
      && added[i].fileName == Some(ArtifactName(pk, saveN + i + 1))
  }

  lemma FitRecordsCons(before: seq<StepRecord>, head: StepRecord, records: seq<StepRecord>, fields: seq<string>,
                       funcName: string, funcPk: int, pk: int, saveN: nat)
    requires |before| + 1 <= |records| && records[..|before| + 1] == before + [head] && fields != []
    requires head.fieldName == fields[0] && head.functionName == funcName && head.functionPk == funcPk
    requires head.fileName == Some(ArtifactName(pk, saveN + 1))
    requires FitRecords(records[|before| + 1..], fields[1..], funcName, funcPk, pk, saveN + 1)
    ensures FitRecords(records[|before|..], fields, funcName, funcPk, pk, saveN)
  {
    assert records[|before|] == (before + [head])[|before|];
    forall i | 1 <= i < |records[|before|..]|
      ensures records[|before|..][i] == records[|before| + 1..][i - 1] && fields[i] == fields[1..][i - 1]
    {
    }
  }

  /** The parameters the transformer of a request is fitted with, or None when building it fails. */
  function TransformerParams(req: Request, d: Descriptor, env: Env): Option<map<string, Value>> {
    match env.oracles.resolve(d)
    case None => None
    case Some(defaults) =>
      if req.condition.None? then Some(defaults)
      else
        var applied := ApplyParams(defaults, req.condition.value, env.oracles.literalEval);
        if applied.1.Some? then None else Some(applied.0)
  }

  /**
   * A request whose function is not DropColumns: build the transformer,
   * apply the requested parameters, then fit each field. A failing import
   * or parameter conversion makes the job fail.
   */
  function FitTransformRequest(s: FitState, req: Request, d: Descriptor, pk: int, env: Env): (p: Progress) {
    match TransformerParams(req, d, env)
    case None => Progress(s, true)
    case Some(params) => FitFields(s, FanOut(req.fieldName), d.functionName, d.name, req.funcPk, params, pk, env)
  }

  /** One request of `task_result`: look the function up, then drop or fit. */
  function FitRequest(s: FitState, req: Request, pk: int, env: Env): (p: Progress) {
    if req.funcPk !in env.catalogue then Progress(s, true)
    else
      var d := env.catalogue[req.funcPk];
      if d.name == "DropColumns" then
        var dropped := DropFields(s.data, s.records, FanOut(req.fieldName), req.funcPk);
        Progress(FitState(dropped.data, s.saveN, dropped.records, s.store), dropped.failed)
      else FitTransformRequest(s, req, d, pk, env)
  }

  /** The request loop of `task_result`; it stops at the first failure. */
  function FitRequests(s: FitState, reqs: seq<Request>, pk: int, env: Env): (p: Progress)
    decreases |reqs|
  {
    if reqs == [] then Progress(s, false)
    else
      var p := FitRequest(s, reqs[0], pk, env);
      if p.failed then p else FitRequests(p.state, reqs[1..], pk, env)
  }

  /**
   * The table one request leaves: a drop that succeeds leaves the table
   * without the fanned-out fields, every other column in its order, and
   * touches neither the counter nor the store; an unknown function id or a
   * transformer that cannot be built fails with the state unchanged; a
   * transformer that is built runs the fields loop from the current state.
   */
  lemma FitRequestTable(s: FitState, req: Request, pk: int, env: Env)
    ensures req.funcPk !in env.catalogue ==> FitRequest(s, req, pk, env) == Progress(s, true)
    ensures req.funcPk in env.catalogue && env.catalogue[req.funcPk].name == "DropColumns" ==>
      var p := FitRequest(s, req, pk, env);
      p.state.saveN == s.saveN && p.state.store == s.store
      && (!p.failed ==>
            p.state.data == KeepUnnamed(s.data, FanOut(req.fieldName))
            && (forall c :: c in p.state.data <==> c in s.data && c.name !in FanOut(req.fieldName)))
    ensures req.funcPk in env.catalogue && env.catalogue[req.funcPk].name != "DropColumns" ==>
      var d := env.catalogue[req.funcPk];
      var p := FitRequest(s, req, pk, env);
      match TransformerParams(req, d, env)
      case None => p == Progress(s, true)
      case Some(params) => p == FitFields(s, FanOut(req.fieldName), d.functionName, d.name, req.funcPk, params, pk, env)
  {
    DropFieldsRemoves(s.data, s.records, FanOut(req.fieldName), req.funcPk);
  }

  /**
   * The request loop over `a + b` is the loop over `a` followed, when that
   * did not fail, by the loop over `b` from the state it reached.
   */
  lemma {:induction false} FitRequestsConcat(s: FitState, a: seq<Request>, b: seq<Request>, pk: int, env: Env)
    ensures FitRequests(s, a + b, pk, env)
         == (var p := FitRequests(s, a, pk, env); if p.failed then p else FitRequests(p.state, b, pk, env))
    decreases |a|
  {
    if a == [] {
      assert a + b == b;
    } else {
      assert (a + b)[0] == a[0] && (a + b)[1..] == a[1..] + b;
      var p := FitRequest(s, a[0], pk, env);
      if !p.failed {
        FitRequestsConcat(p.state, a[1..], b, pk, env);
      }
    }
  }

  /** The request loop over one request is that request. */
  lemma FitRequestsOne(s: FitState, req: Request, pk: int, env: Env)
    ensures FitRequests(s, [req], pk, env) == FitRequest(s, req, pk, env)
  {
    assert [req][0] == req && [req][1..] == [];
  }

  /** Total number of fanned-out fields of the requests. */
  function TotalFields(reqs: seq<Request>): nat {
    if reqs == [] then 0 else |FanOut(reqs[0].fieldName)| + TotalFields(reqs[1..])
  }

  /** The file names recorded in a summary, in record order. */
  function FileNames(records: seq<StepRecord>): seq<string> {
    if records == [] then []
    else
      var last := records[|records| - 1];
      FileNames(records[..|records| - 1]) + (if last.fileName.Some? then [last.fileName.value] else [])
  }

  /** `T_<pk>_1.pickle` .. `T_<pk>_n.pickle`. */
  function ArtifactNames(pk: int, n: nat): (names: seq<string>)
    ensures |names| == n
  {
    if n == 0 then [] else ArtifactNames(pk, n - 1) + [ArtifactName(pk, n)]
  }

  /**
   * The numbering invariant: the recorded file names are exactly
   * `T_<pk>_1 .. T_<pk>_saveN` in order, and each is in the store.
   */
  predicate Numbered(s: FitState, pk: int, cfg: PathConfig) {
    FileNames(s.records) == ArtifactNames(pk, s.saveN)
    && forall n :: 1 <= n <= s.saveN ==> PicklePath(cfg, TransformerBase, ArtifactName(pk, n)) in s.store
  }

  lemma {:induction false} FileNamesAppend(records: seq<StepRecord>, r: StepRecord)
    ensures FileNames(records + [r]) == FileNames(records) + (if r.fileName.Some? then [r.fileName.value] else [])
  {
    assert (records + [r])[..|records|] == records;
  }

  lemma {:induction false} FileNamesConcat(a: seq<StepRecord>, b: seq<StepRecord>)
    ensures FileNames(a + b) == FileNames(a) + FileNames(b)
    decreases |b|
  {
    if b != [] {
      var front := b[..|b| - 1];
      var last := b[|b| - 1];
      assert b == front + [last];
      assert a + b == (a + front) + [last];
      FileNamesAppend(a + front, last);
      FileNamesAppend(front, last);
      FileNamesConcat(a, front);
    } else {
      assert a + b == a;
    }
  }

  lemma {:induction false} FileNamesOfDrops(fields: seq<string>, funcPk: int)
    ensures FileNames(DropRecords(fields, funcPk)) == []
    decreases |fields|
  {
    if fields != [] {
      var rs := DropRecords(fields, funcPk);
      assert rs[..|rs| - 1] == DropRecords(fields[..|fields| - 1], funcPk);
      FileNamesOfDrops(fields[..|fields| - 1], funcPk);
    }
  }

  /** Fitting one field keeps the numbering invariant. */
  lemma AdvanceNumbered(s: FitState, field: string, funcName: string, funcPk: int, fit: Fit, pk: int, cfg: PathConfig)
    requires Numbered(s, pk, cfg)
    ensures Numbered(Advance(s, field, funcName, funcPk, fit, pk, cfg), pk, cfg)
  {
    var s' := Advance(s, field, funcName, funcPk, fit, pk, cfg);
    FileNamesAppend(s.records, s'.records[|s'.records| - 1]);
    assert s'.records == s.records + [s'.records[|s'.records| - 1]];
  }

  /** Fitting fields keeps the numbering invariant, whether or not a field fails. */
  lemma {:induction false} FitFieldsNumbered(s: FitState, fields: seq<string>, className: string, funcName: string,
                                             funcPk: int, params: map<string, Value>, pk: int, env: Env)
    requires Numbered(s, pk, env.cfg)
    ensures Numbered(FitFields(s, fields, className, funcName, funcPk, params, pk, env).state, pk, env.cfg)
    decreases |fields|
  {
    if fields != [] {
      match TrainDataTransformer(s.data, fields[0], className, params, env.oracles)
      case None =>
      case Some(fit) =>
        AdvanceNumbered(s, fields[0], funcName, funcPk, fit, pk, env.cfg);
        FitFieldsNumbered(Advance(s, fields[0], funcName, funcPk, fit, pk, env.cfg), fields[1..],
                          className, funcName, funcPk, params, pk, env);
    }
  }

  /** A drop request never advances the counter and appends no file name. */
  lemma DropKeepsNumbering(s: FitState, fields: seq<string>, funcPk: int, pk: int, cfg: PathConfig)
    requires Numbered(s, pk, cfg)
    ensures var d := DropFields(s.data, s.records, fields, funcPk);
      Numbered(FitState(d.data, s.saveN, d.records, s.store), pk, cfg)
  {
    var d := DropFields(s.data, s.records, fields, funcPk);
    var done := fields[..|d.records| - |s.records|];
    assert d.records == s.records + DropRecords(done, funcPk);
    FileNamesConcat(s.records, DropRecords(done, funcPk));
    FileNamesOfDrops(done, funcPk);
    assert FileNames(d.records) == FileNames(s.records) + [];
    assert FileNames(d.records) == FileNames(s.records);
  }

  /** One request keeps the numbering invariant. */
  lemma FitRequestNumbered(s: FitState, req: Request, pk: int, env: Env)
    requires Numbered(s, pk, env.cfg)
    ensures Numbered(FitRequest(s, req, pk, env).state, pk, env.cfg)
  {
    if req.funcPk in env.catalogue {
      var d := env.catalogue[req.funcPk];
      if d.name == "DropColumns" {
        DropKeepsNumbering(s, FanOut(req.fieldName), req.funcPk, pk, env.cfg);
      } else if TransformerParams(req, d, env).Some? {
        FitFieldsNumbered(s, FanOut(req.fieldName), d.functionName, d.name, req.funcPk,
                          TransformerParams(req, d, env).value, pk, env);
      }
    }
  }

  /**
   * Across a whole run the artifacts are `T_<pk>_1 .. T_<pk>_k` in record
   * order with no gaps, k being the number of records that name a file, and
   * every one of them is in the store.
   */
  lemma {:induction false} FitRequestsNumbered(s: FitState, reqs: seq<Request>, pk: int, env: Env)
    requires Numbered(s, pk, env.cfg)
    ensures Numbered(FitRequests(s, reqs, pk, env).state, pk, env.cfg)
    decreases |reqs|
  {
    if reqs != [] {
      FitRequestNumbered(s, reqs[0], pk, env);
      var p := FitRequest(s, reqs[0], pk, env);
      if !p.failed {
        FitRequestsNumbered(p.state, reqs[1..], pk, env);
      }
    }
  }

  /** The fanned-out fields of the requests, in request order. */
  function AllFields(reqs: seq<Request>): (fields: seq<string>)
    ensures |fields| == TotalFields(reqs)
  {
    if reqs == [] then [] else FanOut(reqs[0].fieldName) + AllFields(reqs[1..])
  }

  lemma FieldNamesSplit(records: seq<StepRecord>, n: nat, fields: seq<string>)
    requires n <= |records| && |records| - n == |fields|
    requires forall i :: n <= i < |records| ==> records[i].fieldName == fields[i - n]
    ensures FieldNames(records) == FieldNames(records[..n]) + fields
  {
  }

  lemma DropFieldsFields(data: Table, records: seq<StepRecord>, fields: seq<string>, funcPk: int)
    ensures var d := DropFields(data, records, fields, funcPk);
      !d.failed ==> FieldNames(d.records) == FieldNames(records) + fields
  {
    var d := DropFields(data, records, fields, funcPk);
    if !d.failed {
      DropFieldsRemoves(data, records, fields, funcPk);
      assert d.records[..|records|] == records;
      FieldNamesSplit(d.records, |records|, fields);
    }
  }

  lemma FitFieldsFields(s: FitState, fields: seq<string>, className: string, funcName: string, funcPk: int,
                        params: map<string, Value>, pk: int, env: Env)
    ensures var p := FitFields(s, fields, className, funcName, funcPk, params, pk, env);
      !p.failed ==> FieldNames(p.state.records) == FieldNames(s.records) + fields
  {
    var p := FitFields(s, fields, className, funcName, funcPk, params, pk, env);
    if !p.failed {
      FitRecordsNames(p.state.records, |s.records|, fields, funcName, funcPk, pk, s.saveN);
    }
  }

  lemma FitRecordsNames(records: seq<StepRecord>, n: nat, fields: seq<string>, funcName: string, funcPk: int,
                        pk: int, saveN: nat)
    requires n <= |records| && |records| - n == |fields|
    requires FitRecords(records[n..], fields, funcName, funcPk, pk, saveN)
    ensures FieldNames(records) == FieldNames(records[..n]) + fields
  {
    forall i | n <= i < |records| ensures records[i].fieldName == fields[i - n] {
      assert records[i] == records[n..][i - n];
    }
    FieldNamesSplit(records, n, fields);
  }

  /** A request that does not fail appends one record per fanned-out field, in order. */
  lemma FitRequestFields(s: FitState, req: Request, pk: int, env: Env)
    ensures var p := FitRequest(s, req, pk, env);
      !p.failed ==> FieldNames(p.state.records) == FieldNames(s.records) + FanOut(req.fieldName)
  {
    if req.funcPk in env.catalogue {
      var d := env.catalogue[req.funcPk];
      if d.name == "DropColumns" {
        DropFieldsFields(s.data, s.records, FanOut(req.fieldName), req.funcPk);
      } else if TransformerParams(req, d, env).Some? {
        FitFieldsFields(s, FanOut(req.fieldName), d.functionName, d.name, req.funcPk,
                        TransformerParams(req, d, env).value, pk, env);
      }
    }
  }

  /**
   * A successful run appends exactly one record per fanned-out field: the
   * j-th new record names the j-th field across the requests.
   */
  lemma {:induction false} FitRequestsOneRecordPerField(s: FitState, reqs: seq<Request>, pk: int, env: Env)
    ensures var p := FitRequests(s, reqs, pk, env);
      !p.failed ==> |p.state.records| == |s.records| + TotalFields(reqs)
    ensures var p := FitRequests(s, reqs, pk, env);
      !p.failed ==> FieldNames(p.state.records) == FieldNames(s.records) + AllFields(reqs)
    decreases |reqs|
  {
    if reqs != [] {
      var p := FitRequest(s, reqs[0], pk, env);
      if !p.failed {
        FitRequestFields(s, reqs[0], pk, env);
        FitRequestsOneRecordPerField(p.state, reqs[1..], pk, env);
        var q := FitRequests(s, reqs, pk, env);
        if !q.failed {
          assert FieldNames(q.state.records) == FieldNames(s.records) + FanOut(reqs[0].fieldName) + AllFields(reqs[1..]);
        }
      }
    }
  }

  /** A request naming an unknown function, or a failing parameter conversion, fails the whole run. */
  lemma FitRequestsFailFast(s: FitState, req: Request, rest: seq<Request>, pk: int, env: Env)
    requires req.funcPk !in env.catalogue
      || (env.catalogue[req.funcPk].name != "DropColumns"
          && env.oracles.resolve(env.catalogue[req.funcPk]).Some?
          && req.condition.Some?
          && ApplyParams(env.oracles.resolve(env.catalogue[req.funcPk]).value, req.condition.value,
                         env.oracles.literalEval).1.Some?)
    ensures FitRequests(s, [req] + rest, pk, env) == Progress(s, true)
  {
    assert ([req] + rest)[0] == req;
  }

  /** What `task_result` returns on success (the profile of the saved file is computed by `DataSummary`). */
  datatype FinalResult = FinalResult(filePath: string, fileName: string, summary: seq<StepRecord>, data: Table)

  /** `PreprocessTask`: the summary accumulated across the requests of one job. */
  class PreprocessTask {
    var pk: int
    var fileName: string
    var filePath: Option<string>
    var realFinalList: seq<StepRecord>

    constructor ()
      ensures pk == 0 && fileName == "" && filePath.None? && realFinalList == []
    {
      pk := 0;
      fileName := "";
      filePath := None;
      realFinalList := [];
    }

    /** `_task_drop_columns`. */
    method TaskDropColumns(data: Table, req: Request) returns (failed: bool, out: Table)
      modifies this`realFinalList
      ensures var d := DropFields(data, old(realFinalList), FanOut(req.fieldName), req.funcPk);
        failed == d.failed && out == d.data && realFinalList == d.records
    {
      var fields := FanOut(req.fieldName);
      out := data;
      var i := 0;
      while i < |fields|
        invariant 0 <= i <= |fields|
        invariant DropFields(out, realFinalList, fields[i..], req.funcPk)
               == DropFields(data, old(realFinalList), fields, req.funcPk)
      {
        assert fields[i..][0] == fields[i] && fields[i..][1..] == fields[i + 1..];
        var dropped := DropColumns(out, fields[i]);
        if dropped.None? {
          return true, out;
        }
        out := dropped.value;
        realFinalList := realFinalList + [StepRecord(fields[i], "DropColumns", req.funcPk, None, None)];
        i := i + 1;
      }
      return false, out;
    }

    /** `_get_base_object` followed, when the request has a condition, by `_change_transformer_params`. */
    static method PrepareTransformer(req: Request, d: Descriptor, env: Env) returns (t: Option<Estimator>)
      ensures t.None? <==> TransformerParams(req, d, env).None?
      ensures t.Some? ==>
        fresh(t.value) && t.value.className == d.functionName && t.value.params == TransformerParams(req, d, env).value
    {
      var e := GetBaseObject(d, env.oracles);
      if e.None? {
        return None;
      }
      var transformer := e.value;
      if req.condition.Some? {
        var err := ChangeTransformerParams(transformer, req.condition.value, env.oracles.literalEval);
        if err.Some? {
          return None;
        }
      }
      return Some(transformer);
    }

    /** One fitted field of `_task_result`: count it, dump the transformer and append its record. */
    method RecordFit(data: Table, field: string, funcName: string, funcPk: int, fit: Fit, saveN: nat,
                     store: map<string, Artifact>, cfg: PathConfig)
      returns (out: Table, saveN': nat, store': map<string, Artifact>)
      modifies this`realFinalList
      ensures FitState(out, saveN', realFinalList, store')
           == Advance(FitState(data, saveN, old(realFinalList), store), field, funcName, funcPk, fit, pk, cfg)
    {
      saveN' := saveN + 1;
      var name := ArtifactName(pk, saveN');
      var (dumped, _) := DumpPickle(store, cfg, TransformerBase, name, fit.artifact);
      store' := dumped;
      realFinalList := realFinalList + [StepRecord(field, funcName, funcPk, Some(name), fit.classes)];
      out := fit.data;
    }

    /** The fields loop of `_task_result`: fit, count, dump and record each field in turn. */
    method FitFieldsLoop(data: Table, fields: seq<string>, className: string, funcName: string, funcPk: int,
                         params: map<string, Value>, saveN: nat, store: map<string, Artifact>, env: Env)
      returns (failed: bool, out: Table, saveN': nat, store': map<string, Artifact>)
      modifies this`realFinalList
      ensures var p := FitFields(FitState(data, saveN, old(realFinalList), store), fields, className, funcName,
                                 funcPk, params, pk, env);
        failed == p.failed && p.state == FitState(out, saveN', realFinalList, store')
    {
      out, saveN', store' := data, saveN, store;
      ghost var spec := FitFields(FitState(data, saveN, realFinalList, store), fields, className, funcName,
                                  funcPk, params, pk, env);
      var i := 0;
      while i < |fields|
        invariant 0 <= i <= |fields|
        invariant FitFields(FitState(out, saveN', realFinalList, store'), fields[i..], className, funcName,
                            funcPk, params, pk, env) == spec
      {
        assert fields[i..][0] == fields[i] && fields[i..][1..] == fields[i + 1..];
        ghost var before := FitState(out, saveN', realFinalList, store');
        var fit := TrainDataTransformer(out, fields[i], className, params, env.oracles);
        if fit.None? {
          assert FitFields(before, fields[i..], className, funcName, funcPk, params, pk, env) == Progress(before, true);
          return true, out, saveN', store';
        }
        assert FitFields(before, fields[i..], className, funcName, funcPk, params, pk, env)
            == FitFields(Advance(before, fields[i], funcName, funcPk, fit.value, pk, env.cfg), fields[i + 1..],
                         className, funcName, funcPk, params, pk, env);
        out, saveN', store' := RecordFit(out, fields[i], funcName, funcPk, fit.value, saveN', store', env.cfg);
        i := i + 1;
      }
      return false, out, saveN', store';
    }

    /** `_task_result`: one request whose function is not DropColumns. */
    method TaskResultStep(data: Table, req: Request, d: Descriptor, saveN: nat, store: map<string, Artifact>, env: Env)
      returns (failed: bool, out: Table, saveN': nat, store': map<string, Artifact>)
      modifies this`realFinalList
      ensures var p := FitTransformRequest(FitState(data, saveN, old(realFinalList), store), req, d, pk, env);
        failed == p.failed && p.state == FitState(out, saveN', realFinalList, store')
    {
      var t := PrepareTransformer(req, d, env);
      if t.None? {
        return true, data, saveN, store;
      }
      failed, out, saveN', store' := FitFieldsLoop(data, FanOut(req.fieldName), t.value.className, d.name,
                                                   req.funcPk, t.value.params, saveN, store, env);
    }

    /**
     * `task_result`: run every request in order; on success the table is
     * saved as `P_<pk>.json` and the result returned, on any failure the
     * result is None (`False`) and no file is saved. Transformers stored
     * before the failure stay in the store.
     */
    method TaskResult(data: Table, reqs: seq<Request>, pk: int, store: map<string, Artifact>, env: Env)
      returns (result: Option<FinalResult>, store': map<string, Artifact>)
      modifies this
      ensures this.pk == pk && fileName == OutputName(pk)
      ensures var p := FitRequests(FitState(data, 0, old(realFinalList), store), reqs, pk, env);
        store' == p.state.store && realFinalList == p.state.records
        && (result.None? <==> p.failed)
        && (p.failed ==> filePath == old(filePath))
        && (result.Some? ==>
              result.value == FinalResult(JoinPath(env.cfg.preprocessedDir, OutputName(pk)), OutputName(pk),
                                          p.state.records, p.state.data)
              && filePath == Some(result.value.filePath))
    {
      this.pk := pk;
      fileName := OutputName(pk);
      var table := data;
      var saveN: nat := 0;
      store' := store;
      ghost var spec := FitRequests(FitState(data, 0, realFinalList, store), reqs, pk, env);
      var i := 0;
      while i < |reqs|
        invariant 0 <= i <= |reqs|
        invariant this.pk == pk && fileName == OutputName(pk) && filePath == old(filePath)
        invariant FitRequests(FitState(table, saveN, realFinalList, store'), reqs[i..], pk, env) == spec
      {
        assert reqs[i..][0] == reqs[i] && reqs[i..][1..] == reqs[i + 1..];
        var req := reqs[i];
        if req.funcPk !in env.catalogue {
          return None, store';
        }
        var d := env.catalogue[req.funcPk];
        var failed;
        if d.name == "DropColumns" {
          failed, table := TaskDropColumns(table, req);
        } else {
          failed, table, saveN, store' := TaskResultStep(table, req, d, saveN, store', env);
        }
        if failed {
          return None, store';
        }
        i := i + 1;
      }
      var path := JoinPath(env.cfg.preprocessedDir, fileName);
      filePath := Some(path);
      return Some(FinalResult(path, fileName, realFinalList, table)), store';
    }
  }
}
