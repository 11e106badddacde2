/**
 * `PreprocessorBase._change_transformer_params`: every requested override is
 * turned into its Python string form, lower-cased, classified by a fixed
 * precedence chain into a typed value and assigned onto the transformer, key
 * by key and in place. The first value that cannot be converted stops the loop
 * with a `ParameterSyntaxError`; keys assigned before it stay assigned.
 */
module PreprocessBase {
  import opened Wrappers
  import opened Strings
  import opened CustomCall

  /** A parameter override as it arrives in the JSON request body. */
  datatype RawParam =
    | RawText(s: string)
    | RawInt(i: int)
    | RawBool(b: bool)
    | RawNull
    | RawOther(text: string)  // any other JSON value, given by the text Python's str() makes of it

  /** Python's `str(v)`. */
  function PyStr(p: RawParam): string {
    match p
    case RawText(s) => s
    case RawInt(i) => IntToString(i)
    case RawBool(b) => if b then "True" else "False"
    case RawNull => "None"
    case RawOther(t) => t
  }

  /** The first test of the chain: the text has a dot and is all digits once the dots are removed. */
  predicate DottedDigits(v: string) {
    '.' in v && IsDigits(RemoveChar(v, '.'))
  }

  /** Number of characters after the last dot. */
  function DigitsAfterDot(v: string): nat
    requires '.' in v
  {
    if v[|v| - 1] == '.' then 0
    else
      assert '.' in v[..|v| - 1] by {
        var i :| 0 <= i < |v| && v[i] == '.';
        assert v[..|v| - 1][i] == '.';
      }
      1 + DigitsAfterDot(v[..|v| - 1])
  }

  function Pow10(n: nat): (r: nat)
    ensures r > 0
  {
    if n == 0 then 1 else 10 * Pow10(n - 1)
  }

  /** Python's `float(v)` on digits with one dot, as the exact decimal it denotes. */
  function DecimalValue(v: string): real
    requires DottedDigits(v)
  {
    ParseNat(RemoveChar(v, '.')) as real / Pow10(DigitsAfterDot(v)) as real
  }

  /** Python's `v[1:-1]`. */
  function Inner(v: string): string {
    if |v| >= 2 then v[1..|v| - 1] else ""
  }

  /**
   * The list branch: strip the brackets, delete every space, split on
   * commas. The items hold neither commas nor spaces, and joined with commas
   * they give back the bracketed text with its spaces deleted.
   */
  function ListItems(v: string): (items: seq<string>)
    ensures |items| >= 1
    ensures Join(items, ',') == RemoveChar(Inner(v), ' ')
    ensures forall i :: 0 <= i < |items| ==> ',' !in items[i] && ' ' !in items[i]
  {
    JoinSplit(RemoveChar(Inner(v), ' '), ',');
    SplitPiecesFrom(RemoveChar(Inner(v), ' '), ',');
    Split(RemoveChar(Inner(v), ' '), ',')
  }

  /**
   * The coercion chain of one value. `Err` carries the text the conversion
   * failed on (`error_detail` of the ParameterSyntaxError).
   */
  function Coerce(raw: RawParam, literalEval: string -> Option<Value>): (r: Result<Value, string>)
    ensures r.Err? ==> r.error == ToLower(PyStr(raw))
    ensures r.Ok? && r.value.StrVal? && !StartsWith(ToLower(PyStr(raw)), "(") ==>
      r.value.s == ToLower(PyStr(raw))
    ensures r.Ok? && r.value.ListVal? && !StartsWith(ToLower(PyStr(raw)), "(") ==>
      r.value.items == ListItems(ToLower(PyStr(raw)))
    ensures r.Err? ==> DottedDigits(ToLower(PyStr(raw))) || StartsWith(ToLower(PyStr(raw)), "(")
  {
    var v := ToLower(PyStr(raw));
    if '.' in v then
      if IsDigits(RemoveChar(v, '.')) then
        if Count(v, '.') == 1 then Ok(FloatVal(DecimalValue(v))) else Err(v)
      else Ok(StrVal(v))
    else if IsDigits(v) then Ok(IntVal(ParseNat(v)))
    else if v == "true" || v == "false" then Ok(BoolVal(v == "true"))
    else if v == "none" then Ok(NullVal)
    else if StartsWith(v, "[") then Ok(ListVal(ListItems(v)))
    else if StartsWith(v, "(") then
      match literalEval(v)
      case Some(x) => Ok(x)
      case None => Err(v)
    else if v == "nan" then Ok(NaNVal)
    else Ok(StrVal(v))
  }

  /** A dotted value is a float, a syntax error or the plain string: the list and tuple branches never see it. */
  lemma DotTestedFirst(raw: RawParam, literalEval: string -> Option<Value>)
    requires '.' in ToLower(PyStr(raw))
    ensures var r := Coerce(raw, literalEval);
      (r.Ok? && r.value.FloatVal?) || r == Err(ToLower(PyStr(raw))) || r == Ok(StrVal(ToLower(PyStr(raw))))
    ensures !DottedDigits(ToLower(PyStr(raw))) ==> Coerce(raw, literalEval) == Ok(StrVal(ToLower(PyStr(raw))))
  {
  }

  /** Digits with two or more dots ("1.2.3") pass the dot test but `float()` raises. */
  lemma ManyDotsIsSyntaxError(raw: RawParam, literalEval: string -> Option<Value>)
    requires DottedDigits(ToLower(PyStr(raw))) && Count(ToLower(PyStr(raw)), '.') >= 2
    ensures Coerce(raw, literalEval) == Err(ToLower(PyStr(raw)))
  {
  }

  /** A JSON integer n >= 0 comes back as the integer n. */
  lemma {:induction false} CoerceNatRoundTrip(n: nat, literalEval: string -> Option<Value>)
    ensures Coerce(RawInt(n), literalEval) == Ok(IntVal(n))
    ensures Coerce(RawText(NatToString(n)), literalEval) == Ok(IntVal(n))
  {
    var s := NatToString(n);
    ToLowerKeepsDigitsAndSigns(s);
    forall i | 0 <= i < |s| ensures s[i] != '.' {
      assert IsDigit(s[i]);
    }
    ParseNatToString(n);
  }

  /** A negative integer such as -3 matches no branch and is assigned as the string "-3". */
  lemma {:induction false} NegativeIntStaysString(n: int, literalEval: string -> Option<Value>)
    requires n < 0
    ensures Coerce(RawInt(n), literalEval) == Ok(StrVal(IntToString(n)))
  {
    var s := IntToString(n);
    var d := NatToString(-n);
    assert s == "-" + d;
    forall i | 0 <= i < |s|
      ensures IsDigit(s[i]) || s[i] == '-' || s[i] == '.'
    {
      if i > 0 { assert s[i] == d[i - 1]; }
    }
    ToLowerKeepsDigitsAndSigns(s);
    assert !IsDigit(s[0]);
    assert '.' !in s by {
      forall i | 0 <= i < |s|
        ensures s[i] != '.'
      {
        if i > 0 { assert s[i] == d[i - 1]; assert IsDigit(d[i - 1]); }
      }
    }
    assert s != "true" && s != "false" && s != "none" && s != "nan" by {
      assert s[0] == '-';
    }
  }

  /** JSON booleans survive the round trip through `str()` and `lower()`. */
  lemma CoerceBool(b: bool, literalEval: string -> Option<Value>)
    ensures Coerce(RawBool(b), literalEval) == Ok(BoolVal(b))
  {
    var t := ToLower(PyStr(RawBool(b)));
    if b {
      assert t == "true" by { assert t[0] == LowerChar('T') == 't'; }
    } else {
      assert t == "false" by { assert t[0] == LowerChar('F') == 'f'; }
    }
    assert '.' !in t && !IsDigits(t) by { assert !IsDigit(t[0]); }
  }

  /** JSON null survives the round trip through `str()` and `lower()`. */
  lemma CoerceNull(literalEval: string -> Option<Value>)
    ensures Coerce(RawNull, literalEval) == Ok(NullVal)
  {
    var t := ToLower(PyStr(RawNull));
    assert t == "none" by { assert t[0] == LowerChar('N') == 'n'; }
    assert '.' !in t && !IsDigits(t) by { assert !IsDigit(t[0]); }
    assert t != "true" && t != "false";
  }

  /** "[]" and "[ ]" become the one-element list [""]. */
  lemma CoerceEmptyList(literalEval: string -> Option<Value>)
    ensures Coerce(RawText("[]"), literalEval) == Ok(ListVal([""]))
    ensures Coerce(RawText("[ ]"), literalEval) == Ok(ListVal([""]))
  {
    var u, w := "[]", "[ ]";
    ToLowerKeepsBrackets(u);
    ToLowerKeepsBrackets(w);
    assert '.' !in u && '.' !in w;
    assert !IsDigits(u) && !IsDigits(w) by { assert !IsDigit(u[0]) && !IsDigit(w[0]); }
    assert StartsWith(u, "[") && StartsWith(w, "[");
    assert u != "true" && u != "false" && u != "none";
    assert w != "true" && w != "false" && w != "none";
    assert Inner(u) == "";
    assert Inner(w) == " ";
    assert RemoveChar(" ", ' ') == "";
  }

  /** "NaN" in any case becomes NaN. */
  lemma CoerceNaN(literalEval: string -> Option<Value>)
    ensures Coerce(RawText("NaN"), literalEval) == Ok(NaNVal)
  {
    var t := ToLower("NaN");
    assert t == "nan" by { assert t[0] == LowerChar('N') == 'n' && t[2] == LowerChar('N'); }
    assert '.' !in t && !IsDigits(t) by { assert !IsDigit(t[0]); }
    assert t != "true" && t != "false" && t != "none";
    assert !StartsWith(t, "[") && !StartsWith(t, "(");
  }

  /** The digits of "0.25" once its dot is removed, read as a number. */
  lemma QuarterDigits()
    ensures RemoveChar("0.25", '.') == "025"
    ensures ParseNat("025") == 25
  {
    assert "0.25"[1..] == ".25" && ".25"[1..] == "25" && "25"[1..] == "5" && "5"[1..] == "";
    assert "025"[..2] == "02";
    assert "02"[..1] == "0";
    assert "0"[..0] == "";
  }

  /** "0.25" has one dot and two digits after it. */
  lemma QuarterDot()
    ensures DottedDigits("0.25")
    ensures DigitsAfterDot("0.25") == 2
    ensures Count("0.25", '.') == 1
  {
    var v := "0.25";
    QuarterDigits();
    assert v[1] == '.';
    assert v[..3] == "0.2";
    assert "0.2"[..2] == "0.";
    assert v[1..] == ".25";
    assert ".25"[1..] == "25";
    assert "25"[1..] == "5";
    assert "5"[1..] == "";
  }

  /** `float("0.25")` is 25 / 100. */
  lemma QuarterValue()
    ensures DottedDigits("0.25") && DecimalValue("0.25") == 0.25
  {
    QuarterDigits();
    QuarterDot();
  }

  /** A one-dot number is the float it denotes: "0.25" is 25 / 100. */
  lemma CoerceDecimal(literalEval: string -> Option<Value>)
    ensures Coerce(RawText("0.25"), literalEval) == Ok(FloatVal(0.25))
  {
    var v := "0.25";
    ToLowerKeepsDigitsAndSigns(v);
    QuarterValue();
    assert '.' in v && IsDigits(RemoveChar(v, '.')) && Count(v, '.') == 1 by { QuarterDot(); }
  }

  // The branches of the chain in precedence order; `v` is the lower-cased text.

  /** Digits around one dot: the float they denote. */
  lemma CoerceFloatBranch(raw: RawParam, literalEval: string -> Option<Value>)
    requires var v := ToLower(PyStr(raw)); DottedDigits(v) && Count(v, '.') == 1
    ensures Coerce(raw, literalEval) == Ok(FloatVal(DecimalValue(ToLower(PyStr(raw)))))
  {
  }

  /** Dot-free digits: the integer they denote. */
  lemma CoerceIntBranch(raw: RawParam, literalEval: string -> Option<Value>)
    requires var v := ToLower(PyStr(raw)); '.' !in v && IsDigits(v)
    ensures Coerce(raw, literalEval) == Ok(IntVal(ParseNat(ToLower(PyStr(raw)))))
  {
  }

  /** "true" and "false", in any case: the boolean. */
  lemma CoerceBoolBranch(raw: RawParam, literalEval: string -> Option<Value>)
    requires ToLower(PyStr(raw)) == "true" || ToLower(PyStr(raw)) == "false"
    ensures Coerce(raw, literalEval) == Ok(BoolVal(ToLower(PyStr(raw)) == "true"))
  {
    var v := ToLower(PyStr(raw));
    assert !IsDigit(v[0]);
  }

  /** "none", in any case: None. */
  lemma CoerceNoneBranch(raw: RawParam, literalEval: string -> Option<Value>)
    requires ToLower(PyStr(raw)) == "none"
    ensures Coerce(raw, literalEval) == Ok(NullVal)
  {
    var v := ToLower(PyStr(raw));
    assert !IsDigit(v[0]);
  }

  /** A dot-free value starting with "[": the list of its comma-separated items. */
  lemma CoerceListBranch(raw: RawParam, literalEval: string -> Option<Value>)
    requires var v := ToLower(PyStr(raw)); '.' !in v && StartsWith(v, "[")
    ensures Coerce(raw, literalEval) == Ok(ListVal(ListItems(ToLower(PyStr(raw)))))
  {
    var v := ToLower(PyStr(raw));
    assert v[0] == '[' && !IsDigit(v[0]);
  }

  /** A dot-free value starting with "(": the literal it evaluates to, or a syntax error. */
  lemma CoerceTupleBranch(raw: RawParam, literalEval: string -> Option<Value>)
    requires var v := ToLower(PyStr(raw)); '.' !in v && StartsWith(v, "(")
    ensures literalEval(ToLower(PyStr(raw))).Some? ==>
      Coerce(raw, literalEval) == Ok(literalEval(ToLower(PyStr(raw))).value)
    ensures literalEval(ToLower(PyStr(raw))).None? ==> Coerce(raw, literalEval) == Err(ToLower(PyStr(raw)))
  {
    var v := ToLower(PyStr(raw));
    assert v[0] == '(' && !IsDigit(v[0]);
  }

  /** "nan", in any case: NaN. */
  lemma CoerceNaNBranch(raw: RawParam, literalEval: string -> Option<Value>)
    requires ToLower(PyStr(raw)) == "nan"
    ensures Coerce(raw, literalEval) == Ok(NaNVal)
  {
    var v := ToLower(PyStr(raw));
    assert !IsDigit(v[0]) && v[0] != '[' && v[0] != '(';
  }

  /** A value no test matches: the lower-cased string. */
  lemma CoerceStringBranch(raw: RawParam, literalEval: string -> Option<Value>)
    requires var v := ToLower(PyStr(raw));
      '.' !in v && !IsDigits(v) && v != "true" && v != "false" && v != "none"
      && !StartsWith(v, "[") && !StartsWith(v, "(") && v != "nan"
    ensures Coerce(raw, literalEval) == Ok(StrVal(ToLower(PyStr(raw))))
  {
  }

  // ---------------------------------------------------------------------------
  // Applying the overrides
  // ---------------------------------------------------------------------------

  /** The error dictionary `{error_name: "ParameterSyntaxError", error_detail: v}`. */
  datatype ParamError = ParamError(errorName: string, errorDetail: string)

  /**
   * The parameters after applying `items` in order, and the detail of the
   * first value that failed (then the parameters are those assigned so far).
   */
  function ApplyParams(params: map<string, Value>, items: seq<(string, RawParam)>,
                       literalEval: string -> Option<Value>): (r: (map<string, Value>, Option<string>))
    ensures forall k :: k in params && k !in KeysOf(items) ==> k in r.0 && r.0[k] == params[k]
    ensures forall k :: k in r.0 ==> k in params || k in KeysOf(items)
    decreases |items|
  {
    if items == [] then (params, None)
    else
      assert KeysOf(items) == [items[0].0] + KeysOf(items[1..]);
      match Coerce(items[0].1, literalEval)
      case Err(d) => (params, Some(d))
      case Ok(v) => ApplyParams(params[items[0].0 := v], items[1..], literalEval)
  }

  /** The overrides are all applied exactly when every value converts, and then every requested key is set. */
  lemma {:induction false} ApplyParamsSucceeds(params: map<string, Value>, items: seq<(string, RawParam)>,
                                               literalEval: string -> Option<Value>)
    ensures ApplyParams(params, items, literalEval).1.None?
        <==> forall i :: 0 <= i < |items| ==> Coerce(items[i].1, literalEval).Ok?
    ensures ApplyParams(params, items, literalEval).1.None? ==>
      forall i :: 0 <= i < |items| ==> items[i].0 in ApplyParams(params, items, literalEval).0
    decreases |items|
  {
    if items != [] {
      match Coerce(items[0].1, literalEval)
      case Err(d) =>
      case Ok(v) =>
        var p' := params[items[0].0 := v];
        ApplyParamsSucceeds(p', items[1..], literalEval);
        var r := ApplyParams(p', items[1..], literalEval);
        forall i | 1 <= i < |items|
          ensures items[i] == items[1..][i - 1]
        {
        }
        if r.1.None? {
          if items[0].0 !in KeysOf(items[1..]) {
            assert items[0].0 in p';
          } else {
            var j :| 0 <= j < |items[1..]| && KeysOf(items[1..])[j] == items[0].0;
            assert items[1..][j].0 == items[0].0;
          }
        }
    }
  }

  /** Each requested key ends up holding the coerced value of its last occurrence in the request. */
  lemma {:induction false} ApplyParamsAssigns(params: map<string, Value>, items: seq<(string, RawParam)>,
                                              literalEval: string -> Option<Value>, i: nat)
    requires i < |items|
    requires ApplyParams(params, items, literalEval).1.None?
    requires forall j :: i < j < |items| ==> items[j].0 != items[i].0
    ensures Coerce(items[i].1, literalEval).Ok?
    ensures items[i].0 in ApplyParams(params, items, literalEval).0
    ensures ApplyParams(params, items, literalEval).0[items[i].0] == Coerce(items[i].1, literalEval).value
    decreases |items|
  {
    ApplyParamsSucceeds(params, items, literalEval);
    var v := Coerce(items[0].1, literalEval).value;
    if i == 0 {
      assert items[0].0 !in KeysOf(items[1..]) by {
        forall j | 0 <= j < |items[1..]| ensures KeysOf(items[1..])[j] != items[0].0 {
          assert items[1..][j] == items[j + 1];
        }
      }
    } else {
      forall j | i - 1 < j < |items[1..]| ensures items[1..][j].0 != items[1..][i - 1].0 {
        assert items[1..][j] == items[j + 1];
      }
      ApplyParamsAssigns(params[items[0].0 := v], items[1..], literalEval, i - 1);
    }
  }

  /** On failure at item i, the keys before it stay assigned: no rollback. */
  lemma {:induction false} ApplyParamsNoRollback(params: map<string, Value>, items: seq<(string, RawParam)>,
                                                 literalEval: string -> Option<Value>, i: nat)
    requires i < |items|
    requires forall j :: 0 <= j < i ==> Coerce(items[j].1, literalEval).Ok?
    requires Coerce(items[i].1, literalEval).Err?
    ensures ApplyParams(params, items, literalEval)
         == (ApplyParams(params, items[..i], literalEval).0, Some(Coerce(items[i].1, literalEval).error))
    decreases i
  {
    if i > 0 {
      var v := Coerce(items[0].1, literalEval).value;
      assert items[1..][i - 1] == items[i];
      forall j | 0 <= j < i - 1 ensures Coerce(items[1..][j].1, literalEval).Ok? {
        assert items[1..][j] == items[j + 1];
      }
      ApplyParamsNoRollback(params[items[0].0 := v], items[1..], literalEval, i - 1);
      assert items[..i][1..] == items[1..][..i - 1];
    }
  }

  /**
   * `_change_transformer_params`: assigns each override onto the transformer
   * in request order; returns None when the transformer itself is handed back,
   * or the ParameterSyntaxError of the first value that failed.
   */
  method ChangeTransformerParams(transformer: Estimator, items: seq<(string, RawParam)>,
                                 literalEval: string -> Option<Value>) returns (err: Option<ParamError>)
    modifies transformer
    ensures transformer.params == ApplyParams(old(transformer.params), items, literalEval).0
    ensures err.None? <==> ApplyParams(old(transformer.params), items, literalEval).1.None?
    ensures err.Some? ==>
      err.value == ParamError("ParameterSyntaxError", ApplyParams(old(transformer.params), items, literalEval).1.value)
  {
    ghost var spec := ApplyParams(transformer.params, items, literalEval);
    var i := 0;
    while i < |items|
      invariant 0 <= i <= |items|
      invariant ApplyParams(transformer.params, items[i..], literalEval) == spec
    {
      var (k, raw) := items[i];
      match Coerce(raw, literalEval)
      case Err(detail) =>
        assert items[i..][0] == items[i];
        return Some(ParamError("ParameterSyntaxError", detail));
      case Ok(v) =>
        assert items[i..][0] == items[i] && items[i..][1..] == items[i + 1..];
        transformer.params := transformer.params[k := v];
      i := i + 1;
    }
    return None;
  }
}
