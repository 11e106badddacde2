/**
 * The request checks and parameter handling around model training: the
 * numeric-data inspection, the training-side parameter coercion (which,
 * unlike the preprocessing one, keeps case and knows negative integers and
 * dictionaries), the mandatory keys of a training request, the PATCH mode
 * check, the train-parameter check that stores the fit arguments, and the
 * normalisation of a stored command before a restart.
 */
module TrainHelper {
  import opened Wrappers
  import opened Strings
  import opened CustomCall
  import opened PreprocessBase
  import opened PreprocessHelper

  // ---------------------------------------------------------------------------
  // _inspect_data
  // ---------------------------------------------------------------------------

  /** `_inspect_data`: the sample is usable exactly when no column has object dtype. */
  function InspectData(dtypes: seq<DType>): (r: bool)
    ensures r <==> forall i :: 0 <= i < |dtypes| ==> dtypes[i] != ObjectType
  {
    if dtypes == [] then true
    else if dtypes[0] == ObjectType then false
    else
      assert forall i :: 1 <= i < |dtypes| ==> dtypes[i] == dtypes[1..][i - 1];
      InspectData(dtypes[1..])
  }

  // ---------------------------------------------------------------------------
  // _change_params
  // ---------------------------------------------------------------------------

  /**
   * The training-side coercion of one value, or None where the conversion
   * raises. The text is `str()` of the value, not lower-cased.
   */
  function TrainCoerce(raw: RawParam, literalEval: string -> Option<Value>): (r: Option<Value>)
    ensures r.Some? && r.value.StrVal? && !StartsWith(PyStr(raw), "{") ==> r.value.s == PyStr(raw)
    ensures r.None? ==> DottedDigits(PyStr(raw)) || StartsWith(PyStr(raw), "-") || StartsWith(PyStr(raw), "{")
  {
    var v := PyStr(raw);
    if '.' in v then
      if IsDigits(RemoveChar(v, '.')) then
        if Count(v, '.') == 1 then Some(FloatVal(DecimalValue(v))) else None
      else Some(StrVal(v))
    else if IsDigits(v) then Some(IntVal(ParseNat(v)))
    else if StartsWith(v, "-") then
      if IsDigits(v[1..]) then Some(IntVal(-(ParseNat(v[1..]) as int))) else None
    else if ToLower(v) == "none" then Some(NullVal)
    else if ToLower(v) == "true" || ToLower(v) == "false" then Some(BoolVal(ToLower(v) == "true"))
    else if StartsWith(v, "{") then literalEval(v)
    else Some(StrVal(v))
  }

  /** Every JSON integer, negative ones included, comes back as itself. */
  lemma {:induction false} TrainIntRoundTrip(i: int, literalEval: string -> Option<Value>)
    ensures TrainCoerce(RawInt(i), literalEval) == Some(IntVal(i))
  {
    var n: nat := if i < 0 then -i else i;
    var d := NatToString(n);
    ParseNatToString(n);
    assert forall j :: 0 <= j < |d| ==> d[j] != '.' by {
      forall j | 0 <= j < |d| ensures d[j] != '.' {
        assert IsDigit(d[j]);
      }
    }
    if i < 0 {
      var s := "-" + d;
      assert PyStr(RawInt(i)) == s;
      assert '.' !in s by {
        forall j | 0 <= j < |s| ensures s[j] != '.' {
          if j > 0 { assert s[j] == d[j - 1]; }
        }
      }
      assert !IsDigit(s[0]);
      assert s[1..] == d;
    }
  }

  /** Case is kept: "Log2" stays "Log2" here, where the preprocessing coercion gives "log2". */
  lemma KeepsCase(literalEval: string -> Option<Value>)
    ensures TrainCoerce(RawText("Log2"), literalEval) == Some(StrVal("Log2"))
    ensures Coerce(RawText("Log2"), literalEval) == Ok(StrVal("log2"))
  {
    var v := "Log2";
    assert ToLower(v) == "log2" by {
      assert LowerChar('L') == 'l';
    }
    assert !IsDigit(v[0]) && !IsDigits(v);
    assert '.' !in v && '.' !in "log2";
    assert !StartsWith(v, "-") && !StartsWith(v, "{");
    assert !StartsWith("log2", "[") && !StartsWith("log2", "(");
    assert !IsDigits("log2") by { assert !IsDigit("log2"[0]); }
  }

  /** JSON booleans survive `str()`: "True" and "False" become booleans again. */
  lemma TrainBool(b: bool, literalEval: string -> Option<Value>)
    ensures TrainCoerce(RawBool(b), literalEval) == Some(BoolVal(b))
  {
    if b {
      assert ToLower("True") == "true" by { assert LowerChar('T') == 't'; }
      assert '.' !in "True" && !IsDigit("True"[0]) && !StartsWith("True", "-");
      assert ToLower("True") != "none";
    } else {
      assert ToLower("False") == "false" by { assert LowerChar('F') == 'f'; }
      assert '.' !in "False" && !IsDigit("False"[0]) && !StartsWith("False", "-");
      assert ToLower("False") != "none";
    }
  }

  /** JSON null survives `str()`: "None" becomes None again. */
  lemma TrainNull(literalEval: string -> Option<Value>)
    ensures TrainCoerce(RawNull, literalEval) == Some(NullVal)
  {
    var v := PyStr(RawNull);
    assert v == "None";
    assert '.' !in v && !IsDigits(v) && !StartsWith(v, "-") by { assert !IsDigit(v[0]) && v[0] != '-'; }
    var l := ToLower(v);
    assert l == "none" by {
      assert l[0] == LowerChar('N') == 'n';
      assert l[1] == 'o' && l[2] == 'n' && l[3] == 'e';
    }
  }

  /** "NONE" in any case is None. */
  lemma TrainNoneAnyCase(literalEval: string -> Option<Value>)
    ensures TrainCoerce(RawText("NONE"), literalEval) == Some(NullVal)
  {
    assert ToLower("NONE") == "none" by {
      assert LowerChar('N') == 'n' && LowerChar('O') == 'o' && LowerChar('E') == 'e';
    }
    assert '.' !in "NONE" && !IsDigit("NONE"[0]) && !StartsWith("NONE", "-");
  }

  /** "-abc" starts like a negative integer and raises; "-1.5" fails the dot test and stays a string. */
  lemma TrainMinusCases(literalEval: string -> Option<Value>)
    ensures TrainCoerce(RawText("-abc"), literalEval) == None
    ensures TrainCoerce(RawText("-1.5"), literalEval) == Some(StrVal("-1.5"))
  {
    assert '.' !in "-abc" && !IsDigit("-abc"[0]) && !IsDigit("-abc"[1..][0]);
    assert RemoveChar("-1.5", '.') == "-15";
    assert !IsDigit("-15"[0]);
  }

  // The branches of the chain in precedence order; `v` is the text, case kept.

  /** Digits around one dot: the float they denote; with more dots `float()` raises. */
  lemma TrainFloatBranch(raw: RawParam, literalEval: string -> Option<Value>)
    requires DottedDigits(PyStr(raw))
    ensures Count(PyStr(raw), '.') == 1 ==> TrainCoerce(raw, literalEval) == Some(FloatVal(DecimalValue(PyStr(raw))))
    ensures Count(PyStr(raw), '.') != 1 ==> TrainCoerce(raw, literalEval) == None
  {
  }

  /** A dotted value that is not digits otherwise: the string itself ("-1.5", "0.5e3"). */
  lemma TrainDottedString(raw: RawParam, literalEval: string -> Option<Value>)
    requires '.' in PyStr(raw) && !DottedDigits(PyStr(raw))
    ensures TrainCoerce(raw, literalEval) == Some(StrVal(PyStr(raw)))
  {
  }

  /** Dot-free digits: the integer they denote. */
  lemma TrainIntBranch(raw: RawParam, literalEval: string -> Option<Value>)
    requires '.' !in PyStr(raw) && IsDigits(PyStr(raw))
    ensures TrainCoerce(raw, literalEval) == Some(IntVal(ParseNat(PyStr(raw))))
  {
  }

  /** A dot-free value starting with "-": the negative integer, or None where `int()` raises. */
  lemma TrainNegativeBranch(raw: RawParam, literalEval: string -> Option<Value>)
    requires '.' !in PyStr(raw) && StartsWith(PyStr(raw), "-")
    ensures IsDigits(PyStr(raw)[1..]) ==> TrainCoerce(raw, literalEval) == Some(IntVal(-(ParseNat(PyStr(raw)[1..]) as int)))
    ensures !IsDigits(PyStr(raw)[1..]) ==> TrainCoerce(raw, literalEval) == None
  {
    assert !IsDigit(PyStr(raw)[0]);
  }

  /** "none" in any case, dot-free: None. */
  lemma TrainNoneBranch(raw: RawParam, literalEval: string -> Option<Value>)
    requires ToLower(PyStr(raw)) == "none"
    ensures TrainCoerce(raw, literalEval) == Some(NullVal)
  {
    var v := PyStr(raw);
    assert LowerChar(v[0]) == 'n' && !IsDigit(v[0]) && v[0] != '-';
    assert '.' !in v by {
      forall i | 0 <= i < |v| ensures v[i] != '.' {
        assert LowerChar(v[i]) == ToLower(v)[i];
      }
    }
  }

  /** "true" or "false" in any case: the boolean. */
  lemma TrainBoolBranch(raw: RawParam, literalEval: string -> Option<Value>)
    requires ToLower(PyStr(raw)) == "true" || ToLower(PyStr(raw)) == "false"
    ensures TrainCoerce(raw, literalEval) == Some(BoolVal(ToLower(PyStr(raw)) == "true"))
  {
    var v := PyStr(raw);
    assert LowerChar(v[0]) in "tf" && !IsDigit(v[0]) && v[0] != '-';
    assert '.' !in v by {
      forall i | 0 <= i < |v| ensures v[i] != '.' {
        assert LowerChar(v[i]) == ToLower(v)[i];
      }
    }
  }

  /** A dot-free value starting with "{": whatever `literal_eval` makes of it. */
  lemma TrainDictBranch(raw: RawParam, literalEval: string -> Option<Value>)
    requires '.' !in PyStr(raw) && StartsWith(PyStr(raw), "{")
    ensures TrainCoerce(raw, literalEval) == literalEval(PyStr(raw))
  {
    var v := PyStr(raw);
    assert v[0] == '{' && !IsDigit(v[0]) && ToLower(v)[0] == '{';
  }

  /** A value no test matches: the string, case kept. */
  lemma TrainStringBranch(raw: RawParam, literalEval: string -> Option<Value>)
    requires var v := PyStr(raw);
      '.' !in v && !IsDigits(v) && !StartsWith(v, "-") && !StartsWith(v, "{")
      && ToLower(v) != "none" && ToLower(v) != "true" && ToLower(v) != "false"
    ensures TrainCoerce(raw, literalEval) == Some(StrVal(PyStr(raw)))
  {
  }

  /** The training conversion with the `literal_eval` oracle fixed. */
  function TrainCoercion(literalEval: string -> Option<Value>): RawParam -> Option<Value> {
    raw => TrainCoerce(raw, literalEval)
  }

  /**
   * The parameters after assigning `items` in order with the conversion
   * `coerce`, and whether every value converted; the first value that
   * raises ends the loop silently, keeping the keys assigned so far.
   */
  function TrainApply(params: map<string, Value>, items: seq<(string, RawParam)>,
                      coerce: RawParam -> Option<Value>): (r: (map<string, Value>, bool))
    ensures forall k :: k in params && k !in KeysOf(items) ==> k in r.0 && r.0[k] == params[k]
    ensures forall k :: k in r.0 ==> k in params || k in KeysOf(items)
    decreases |items|
  {
    if items == [] then (params, true)
    else
      assert KeysOf(items) == [items[0].0] + KeysOf(items[1..]);
      match coerce(items[0].1)
      case None => (params, false)
      case Some(v) => TrainApply(params[items[0].0 := v], items[1..], coerce)
  }

  /** The loop completes exactly when every value converts, and then every key is set. */
  lemma {:induction false} TrainApplyCompletes(params: map<string, Value>, items: seq<(string, RawParam)>,
                                               coerce: RawParam -> Option<Value>)
    ensures TrainApply(params, items, coerce).1
        <==> forall i :: 0 <= i < |items| ==> coerce(items[i].1).Some?
    ensures TrainApply(params, items, coerce).1 ==>
      forall i :: 0 <= i < |items| ==> items[i].0 in TrainApply(params, items, coerce).0
    decreases |items|
  {
    if items != [] {
      match coerce(items[0].1)
      case None =>
      case Some(v) =>
        var p' := params[items[0].0 := v];
        TrainApplyCompletes(p', items[1..], coerce);
        var r := TrainApply(p', items[1..], coerce);
        forall i | 1 <= i < |items|
          ensures items[i] == items[1..][i - 1]
        {
        }
        if r.1 {
          if items[0].0 !in KeysOf(items[1..]) {
            assert items[0].0 in p';
          } else {
            var j :| 0 <= j < |items[1..]| && KeysOf(items[1..])[j] == items[0].0;
            assert items[1..][j].0 == items[0].0;
          }
        }
    }
  }

  /** When item i is the first to raise, the result is the assignment of the items before it. */
  lemma {:induction false} TrainApplyStopsSilently(params: map<string, Value>, items: seq<(string, RawParam)>,
                                                   coerce: RawParam -> Option<Value>, i: nat)
    requires i < |items|
    requires forall j :: 0 <= j < i ==> coerce(items[j].1).Some?
    requires coerce(items[i].1).None?
    ensures TrainApply(params, items, coerce) == (TrainApply(params, items[..i], coerce).0, false)
    decreases i
  {
    if i > 0 {
      var v := coerce(items[0].1).value;
      assert items[1..][i - 1] == items[i];
      forall j | 0 <= j < i - 1 ensures coerce(items[1..][j].1).Some? {
        assert items[1..][j] == items[j + 1];
      }
      var p' := params[items[0].0 := v];
      TrainApplyStopsSilently(p', items[1..], coerce, i - 1);
      var w := items[..i];
      assert w[0] == items[0] && w[1..] == items[1..][..i - 1];
      assert TrainApply(params, items, coerce) == TrainApply(p', items[1..], coerce);
      assert TrainApply(params, w, coerce) == TrainApply(p', w[1..], coerce);
    }
  }

  /**
   * `_change_params`: sets each requested parameter on the model in request
   * order. It reports nothing; a value that raises ends the loop and the
   * model keeps what was set before it.
   */
  method ChangeParams(model: Estimator, items: seq<(string, RawParam)>, literalEval: string -> Option<Value>)
    modifies model
    ensures model.params == TrainApply(old(model.params), items, TrainCoercion(literalEval)).0
  {
    ghost var spec := TrainApply(model.params, items, TrainCoercion(literalEval));
    var i := 0;
    while i < |items|
      invariant 0 <= i <= |items|
      invariant TrainApply(model.params, items[i..], TrainCoercion(literalEval)).0 == spec.0
    {
      assert items[i..][0] == items[i] && items[i..][1..] == items[i + 1..];
      var (k, raw) := items[i];
      var v := TrainCoerce(raw, literalEval);
      if v.None? {
        return;
      }
      model.params := model.params[k := v.value];
      i := i + 1;
    }
  }

  // ---------------------------------------------------------------------------
  // _mandatory_key_exists_models_post and check_patch_mode
  // ---------------------------------------------------------------------------

  const ModelsPostKeys: seq<string> := ["algorithms_sequence_pk", "train_data", "train_parameters"]

  /** `train_data` names an original or a preprocessed data set. */
  predicate HasTrainData(trainDataKeys: set<string>) {
    "original_data_sequence_pk" in trainDataKeys || "preprocessed_data_sequence_pk" in trainDataKeys
  }

  /** A mandatory key the loop reports: absent, or `train_data` naming no data set. */
  predicate Broken(key: string, keys: set<string>, trainDataKeys: set<string>) {
    key !in keys || (key == "train_data" && !HasTrainData(trainDataKeys))
  }

  /** The loop of `_mandatory_key_exists_models_post` over the remaining mandatory keys. */
  function FirstBroken(mand: seq<string>, keys: set<string>, trainDataKeys: set<string>): (r: KeyCheck)
    ensures r == AllPresent <==> forall i :: 0 <= i < |mand| ==> !Broken(mand[i], keys, trainDataKeys)
    ensures r.MissingKey? ==>
      exists i :: 0 <= i < |mand| && mand[i] == r.key && Broken(mand[i], keys, trainDataKeys)
        && forall j :: 0 <= j < i ==> !Broken(mand[j], keys, trainDataKeys)
  {
    if mand == [] then AllPresent
    else if Broken(mand[0], keys, trainDataKeys) then MissingKey(mand[0])
    else
      var r := FirstBroken(mand[1..], keys, trainDataKeys);
      assert forall i :: 1 <= i < |mand| ==> mand[i] == mand[1..][i - 1];
      if r.MissingKey? then
        var i :| 0 <= i < |mand[1..]| && mand[1..][i] == r.key && Broken(mand[1..][i], keys, trainDataKeys)
          && forall j :: 0 <= j < i ==> !Broken(mand[1..][j], keys, trainDataKeys);
        assert mand[i + 1] == r.key;
        r
      else r
  }

  /** `_mandatory_key_exists_models_post`: True, or the first mandatory key to report. */
  function MandatoryKeyExistsModelsPost(keys: set<string>, trainDataKeys: set<string>): (r: KeyCheck)
    ensures r == AllPresent <==>
      "algorithms_sequence_pk" in keys && "train_data" in keys && "train_parameters" in keys
      && HasTrainData(trainDataKeys)
    ensures r.MissingKey? ==> r.key in ModelsPostKeys
  {
    var r := FirstBroken(ModelsPostKeys, keys, trainDataKeys);
    assert r == AllPresent <==>
      !Broken(ModelsPostKeys[0], keys, trainDataKeys) && !Broken(ModelsPostKeys[1], keys, trainDataKeys)
      && !Broken(ModelsPostKeys[2], keys, trainDataKeys);
    r
  }

  /** A `train_data` without a data-set key is reported as "train_data", even when the other keys are there. */
  lemma TrainDataWithoutIdReported(keys: set<string>, trainDataKeys: set<string>)
    requires "algorithms_sequence_pk" in keys && "train_data" in keys
    requires !HasTrainData(trainDataKeys)
    ensures MandatoryKeyExistsModelsPost(keys, trainDataKeys) == MissingKey("train_data")
  {
    var r := FirstBroken(ModelsPostKeys, keys, trainDataKeys);
    assert Broken(ModelsPostKeys[1], keys, trainDataKeys);
    assert r.MissingKey?;
    var i :| 0 <= i < |ModelsPostKeys| && ModelsPostKeys[i] == r.key && Broken(ModelsPostKeys[i], keys, trainDataKeys)
      && forall j :: 0 <= j < i ==> !Broken(ModelsPostKeys[j], keys, trainDataKeys);
    assert i == 1;
  }

  const PatchModes: seq<string> := ["STOP", "TEST", "RESTART"]

  /** `check_patch_mode` on the request body. */
  function CheckPatchMode(request: map<string, RawParam>): (r: Verdict)
    ensures r == Valid <==>
      "mode" in request && request["mode"].RawText? && request["mode"].s in PatchModes
      && (request["mode"].s == "TEST" ==> "test_data_path" in request)
    ensures "mode" !in request ==> r == Invalid("4101", "mode")
    ensures "mode" in request && !(request["mode"].RawText? && request["mode"].s in PatchModes) ==>
      r == Invalid("4102", PyStr(request["mode"]))
    ensures "mode" in request && request["mode"] == RawText("TEST") && "test_data_path" !in request ==>
      r == Invalid("4101", "test_data_path")
    ensures r != NotFound
  {
    if "mode" !in request then Invalid("4101", "mode")
    else if !(request["mode"].RawText? && request["mode"].s in PatchModes) then Invalid("4102", PyStr(request["mode"]))
    else if request["mode"].s == "TEST" && "test_data_path" !in request then Invalid("4101", "test_data_path")
    else Valid
  }

  /** Modes are matched case-sensitively: "stop" is rejected. */
  lemma PatchModeIsCaseSensitive()
    ensures CheckPatchMode(map["mode" := RawText("stop")]) == Invalid("4102", "stop")
    ensures CheckPatchMode(map["mode" := RawText("TEST")]) == Invalid("4101", "test_data_path")
  {
    assert "stop" != "STOP" && "stop" != "TEST" && "stop" != "RESTART" by {
      assert "stop"[0] != "STOP"[0];
    }
  }

  // ---------------------------------------------------------------------------
  // _check_train_parameters
  // ---------------------------------------------------------------------------

  /** Python's `d[k]` on a dictionary built from `items`: the last value given for `k`. */
  function Lookup(items: seq<(string, RawParam)>, k: string): (r: Option<RawParam>)
    ensures r.Some? <==> k in KeysOf(items)
    decreases |items|
  {
    if items == [] then None
    else
      assert KeysOf(items) == KeysOf(items[..|items| - 1]) + [items[|items| - 1].0];
      if items[|items| - 1].0 == k then Some(items[|items| - 1].1)
      else Lookup(items[..|items| - 1], k)
  }

  /** `d.update(items)` (or `d[k] = v` per item) on a dictionary `m`. */
  function Overlay(m: map<string, RawParam>, items: seq<(string, RawParam)>): map<string, RawParam>
    decreases |items|
  {
    if items == [] then m
    else Overlay(m, items[..|items| - 1])[items[|items| - 1].0 := items[|items| - 1].1]
  }

  /** A key of the overlay holds its last value in `items`, or else its value in `m`. */
  lemma {:induction false} OverlayLookup(m: map<string, RawParam>, items: seq<(string, RawParam)>, k: string)
    ensures k in Overlay(m, items) <==> k in m || Lookup(items, k).Some?
    ensures k in Overlay(m, items) ==>
      Overlay(m, items)[k] == if Lookup(items, k).Some? then Lookup(items, k).value else m[k]
    decreases |items|
  {
    if items != [] {
      OverlayLookup(m, items[..|items| - 1], k);
    }
  }

  /** The fit signature's parameters with their defaults, None where there is none. */
  function DefaultItems(signature: seq<(string, Option<RawParam>)>): (r: seq<(string, RawParam)>)
    ensures |r| == |signature|
    ensures forall i :: 0 <= i < |signature| ==>
      r[i] == (signature[i].0, if signature[i].1.Some? then signature[i].1.value else RawNull)
  {
    seq(|signature|, i requires 0 <= i < |signature| =>
      (signature[i].0, if signature[i].1.Some? then signature[i].1.value else RawNull))
  }

  function ParamNames(signature: seq<(string, Option<RawParam>)>): (r: seq<string>)
    ensures |r| == |signature|
    ensures forall i :: 0 <= i < |signature| ==> r[i] == signature[i].0
  {
    seq(|signature|, i requires 0 <= i < |signature| => signature[i].0)
  }

  /** `str(v)` for booleans and None, so they can be stored as JSON text. */
  function Stringify(v: RawParam): (r: RawParam)
    ensures !r.RawBool? && !r.RawNull?
    ensures r.RawText? ==> r.s == PyStr(v)
    ensures !v.RawBool? && !v.RawNull? ==> r == v
  {
    match v
    case RawBool(_) => RawText(PyStr(v))
    case RawNull => RawText(PyStr(v))
    case _ => v
  }

  /** The `train_param` stored for the job: defaults, overridden by the request, then stringified. */
  function StoredTrainParam(signature: seq<(string, Option<RawParam>)>, request: seq<(string, RawParam)>)
    : map<string, RawParam>
  {
    var o := Overlay(Overlay(map[], DefaultItems(signature)), request);
    map k | k in o :: Stringify(o[k])
  }

  /**
   * The stored parameters are exactly the fit parameters and the requested
   * ones; a requested value wins over the default; no boolean or None is left.
   */
  lemma StoredTrainParamFacts(signature: seq<(string, Option<RawParam>)>, request: seq<(string, RawParam)>, k: string)
    ensures k in StoredTrainParam(signature, request) <==> k in ParamNames(signature) || k in KeysOf(request)
    ensures Lookup(request, k).Some? ==>
      StoredTrainParam(signature, request)[k] == Stringify(Lookup(request, k).value)
    ensures Lookup(request, k).None? && k in StoredTrainParam(signature, request) ==>
      StoredTrainParam(signature, request)[k] == Stringify(Lookup(DefaultItems(signature), k).value)
    ensures k in StoredTrainParam(signature, request) ==>
      !StoredTrainParam(signature, request)[k].RawBool? && !StoredTrainParam(signature, request)[k].RawNull?
  {
    OverlayLookup(map[], DefaultItems(signature), k);
    OverlayLookup(Overlay(map[], DefaultItems(signature)), request, k);
    assert KeysOf(DefaultItems(signature)) == ParamNames(signature);
  }

  /**
   * The answer of `_check_train_parameters`: 4102 for the first requested
   * name that is not an argument of `fit`, 4101 when "y" is missing (always
   * required: the library and usage condition is always true), 4102 for a
   * y that is not a column of the training data.
   */
  function TrainParamVerdict(fitArgs: seq<string>, request: seq<(string, RawParam)>, columns: seq<string>): (r: Verdict)
    ensures r == Valid <==>
      (forall k :: k in KeysOf(request) ==> k in fitArgs)
      && Lookup(request, "y").Some? && Lookup(request, "y").value.RawText?
      && Lookup(request, "y").value.s in columns
    ensures Absent(KeysOf(request), fitArgs) != [] ==> r == Invalid("4102", Absent(KeysOf(request), fitArgs)[0])
    ensures "y" !in KeysOf(request) && (forall k :: k in KeysOf(request) ==> k in fitArgs) ==>
      r == Invalid("4101", "y")
    ensures ((forall k :: k in KeysOf(request) ==> k in fitArgs) && Lookup(request, "y").Some?
      && !(Lookup(request, "y").value.RawText? && Lookup(request, "y").value.s in columns)) ==>
        r == Invalid("4102", PyStr(Lookup(request, "y").value))
    ensures r != NotFound
  {
    var unknown := Absent(KeysOf(request), fitArgs);
    if unknown != [] then
      assert unknown[0] in unknown;
      Invalid("4102", unknown[0])
    else if Lookup(request, "y").None? then Invalid("4101", "y")
    else
      var y := Lookup(request, "y").value;
      if !(y.RawText? && y.s in columns) then Invalid("4102", PyStr(y)) else Valid
  }

  class InspectUserRequest {
    var trainParam: Option<map<string, RawParam>>

    constructor ()
      ensures trainParam.None?
    {
      trainParam := None;
    }

    /** The name loop of `_check_train_parameters`: the first requested name `fit` does not take. */
    static method FirstUnknownName(names: seq<string>, fitArgs: seq<string>) returns (r: Option<string>)
      ensures r.None? <==> Absent(names, fitArgs) == []
      ensures r.Some? ==> r.value == Absent(names, fitArgs)[0]
    {
      var i := 0;
      while i < |names|
        invariant 0 <= i <= |names|
        invariant forall j :: 0 <= j < i ==> names[j] in fitArgs
      {
        if names[i] !in fitArgs {
          AbsentFirst(names, fitArgs, i);
          return Some(names[i]);
        }
        i := i + 1;
      }
      AbsentEmpty(names, fitArgs);
      return None;
    }

    /** The dictionary stored as `train_param`: defaults, then the request, then `str()` of bools and None. */
    static method BuildTrainParam(signature: seq<(string, Option<RawParam>)>, request: seq<(string, RawParam)>)
      returns (tp: map<string, RawParam>)
      ensures tp == StoredTrainParam(signature, request)
    {
      tp := map[];
      var j := 0;
      while j < |signature|
        invariant 0 <= j <= |signature|
        invariant tp == Overlay(map[], DefaultItems(signature[..j]))
      {
        ghost var d := DefaultItems(signature[..j + 1]);
        assert d[..j] == DefaultItems(signature[..j]);
        var (k, default) := signature[j];
        assert d[j] == (k, if default.Some? then default.value else RawNull);
        assert Overlay(map[], d) == Overlay(map[], d[..j])[d[j].0 := d[j].1];
        tp := tp[k := if default.Some? then default.value else RawNull];
        j := j + 1;
      }
      assert signature[..|signature|] == signature;
      ghost var defaults := tp;
      j := 0;
      while j < |request|
        invariant 0 <= j <= |request|
        invariant tp == Overlay(defaults, request[..j])
      {
        assert request[..j + 1][..j] == request[..j];
        tp := tp[request[j].0 := request[j].1];
        j := j + 1;
      }
      assert request[..|request|] == request;
      ghost var base := tp;
      var todo := tp.Keys;
      ghost var done: set<string> := {};
      while todo != {}
        invariant todo + done == base.Keys && todo !! done
        invariant tp.Keys == base.Keys
        invariant forall k :: k in done ==> tp[k] == Stringify(base[k])
        invariant forall k :: k in todo ==> tp[k] == base[k]
        decreases todo
      {
        var k :| k in todo;
        tp := tp[k := Stringify(tp[k])];
        todo := todo - {k};
        done := done + {k};
      }
    }

    /**
     * `_check_train_parameters`. `fitArgs` are the argument names of the
     * estimator's `fit` as `getfullargspec` lists them, `signature` its
     * parameters with their defaults as `signature` lists them, and
     * `columns` the training data's columns.
     */
    method CheckTrainParameters(fitArgs: seq<string>, signature: seq<(string, Option<RawParam>)>,
                                request: seq<(string, RawParam)>, columns: seq<string>) returns (r: Verdict)
      modifies this`trainParam
      ensures r == TrainParamVerdict(fitArgs, request, columns)
      ensures r.Valid? ==> trainParam == Some(StoredTrainParam(signature, request))
      ensures !r.Valid? ==> trainParam == old(trainParam)
    {
      var unknown := FirstUnknownName(KeysOf(request), fitArgs);
      if unknown.Some? {
        return Invalid("4102", unknown.value);
      }
      var y := Lookup(request, "y");
      if y.None? {
        return Invalid("4101", "y");
      }
      if !(y.value.RawText? && y.value.s in columns) {
        return Invalid("4102", PyStr(y.value));
      }
      var tp := BuildTrainParam(signature, request);
      trainParam := Some(tp);
      return Valid;
    }
  }

  // ---------------------------------------------------------------------------
  // MachineLearningTask.check_params
  // ---------------------------------------------------------------------------

  /**
   * One value as `check_params` is written: strings are lower-cased and
   * "true"/"false" become booleans; the None branch compares the lower-cased
   * text with "None".
   */
  function NormalizeParamAsWritten(v: RawParam): (r: RawParam)
    ensures !v.RawText? ==> r == v
    ensures v.RawText? ==> (r.RawBool? <==> ToLower(v.s) in ["true", "false"])
    ensures v.RawText? && r.RawBool? ==> r.b == (ToLower(v.s) == "true")
    ensures r.RawText? ==> v.RawText? && r.s == ToLower(v.s)
  {
    match v
    case RawText(s) =>
      var l := ToLower(s);
      if l == "true" || l == "false" then RawBool(l == "true")
      else if l == "None" then RawNull
      else RawText(l)
    case _ => v
  }

  /** The None branch of `check_params` as written can never fire. */
  lemma NoneBranchNeverFires(s: string)
    ensures NormalizeParamAsWritten(RawText(s)) != RawNull
    ensures NormalizeParamAsWritten(RawText("None")) == RawText("none")
  {
    if |s| > 0 {
      assert ToLower(s)[0] == LowerChar(s[0]);
    }
    assert ToLower("None") == "none" by { assert LowerChar('N') == 'n'; }
    assert "none" != "true" && "none" != "false" && "none" != "None";
  }

  /** One value as `check_params` evidently means it: "none" in any case is None. */
  function NormalizeParam(v: RawParam): (r: RawParam)
    ensures !v.RawText? ==> r == v
    ensures v.RawText? ==> (r.RawBool? <==> ToLower(v.s) == "true" || ToLower(v.s) == "false")
    ensures r.RawBool? && v.RawText? ==> r.b == (ToLower(v.s) == "true")
    ensures v.RawText? ==> (r.RawNull? <==> ToLower(v.s) == "none")
    ensures r.RawText? ==> v.RawText? && r.s == ToLower(v.s)
  {
    match v
    case RawText(s) =>
      var l := ToLower(s);
      if l == "true" || l == "false" then RawBool(l == "true")
      else if l == "none" then RawNull
      else RawText(l)
    case _ => v
  }

  /** "None" is the one input where the two differ among the capitalisations of none. */
  lemma NormalizeParamFixesNone()
    ensures NormalizeParam(RawText("None")) == RawNull
    ensures NormalizeParamAsWritten(RawText("None")) != NormalizeParam(RawText("None"))
  {
    assert ToLower("None") == "none" by { assert LowerChar('N') == 'n'; }
    NoneBranchNeverFires("None");
  }

  /** `check_params`: the stored command with every value normalised, keys unchanged. */
  method CheckParams(params: seq<(string, RawParam)>) returns (valid: map<string, RawParam>)
    ensures forall k :: k in valid <==> Lookup(params, k).Some?
    ensures forall k :: k in valid ==> valid[k] == NormalizeParam(Lookup(params, k).value)
  {
    valid := map[];
    var i := 0;
    while i < |params|
      invariant 0 <= i <= |params|
      invariant forall k :: k in valid <==> Lookup(params[..i], k).Some?
      invariant forall k :: k in valid ==> valid[k] == NormalizeParam(Lookup(params[..i], k).value)
    {
      assert params[..i + 1][..i] == params[..i];
      var (k, v) := params[i];
      valid := valid[k := NormalizeParam(v)];
      i := i + 1;
    }
    assert params[..|params|] == params;
  }
}
