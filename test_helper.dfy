/**
 * Model testing on new data (`ModelPerformance`): the summary stored with a
 * preprocessed data set is replayed, step by step and in order, on the test
 * table. Drops drop; every other step loads its stored transformer and calls
 * `transform` (never a fit) and integrates the output exactly as the fit did.
 * The resulting table must then hold the model's X and y columns.
 */
module TestHelper {
  import opened Wrappers
  import opened Strings
  import opened CustomCall
  import opened PreprocessHelper

  /** How a replay ends: the replayed table, `False`, or an exception. */
  datatype ReplayOutcome = Replayed(data: Table) | NotSuitable | ReplayRaised

  /** The replay state: the table so far and the remembered y transformer. */
  datatype ReplayState = ReplayState(data: Table, yTransformer: Option<Artifact>)

  /** The result of one replay step: the next state, or where the replay stopped. */
  datatype StepResult = Continue(state: ReplayState) | Stopped(outcome: ReplayOutcome, last: ReplayState)

  /** The context of a replay: the columns of the test table before the first step, the target, and the store. */
  datatype ReplayEnv = ReplayEnv(
    original: seq<string>,
    yData: string,
    store: map<string, Artifact>,
    cfg: PathConfig,
    oracles: Oracles)

  /** One iteration of `_test_data_transformer`. */
  function ReplayStep(s: ReplayState, r: StepRecord, env: ReplayEnv): (res: StepResult)
    ensures r.fieldName !in env.original ==> res == Stopped(NotSuitable, s)
    ensures res.Continue? && r.functionName == "DropColumns" ==>
      res.state.yTransformer == s.yTransformer && r.fieldName !in Names(res.state.data)
    ensures res.Stopped? ==> res.outcome != Replayed(res.last.data)
    ensures res.Stopped? && r.fieldName in env.original ==> res.outcome == ReplayRaised
    ensures r.fieldName in env.original && r.functionName == "DropColumns" ==>
      (res.Continue? <==> r.fieldName in Names(s.data))
      && (res.Continue? ==> Some(res.state.data) == DropColumns(s.data, r.fieldName))
    ensures r.fieldName in env.original && r.functionName != "DropColumns" ==>
      (res.Continue? <==>
        r.fileName.Some?
        && LoadPickle(env.store, env.cfg, TransformerBase, r.fileName.value).Some?
        && r.fieldName in Names(s.data)
        && env.oracles.transform(LoadPickle(env.store, env.cfg, TransformerBase, r.fileName.value).value,
                                 Get(s.data, r.fieldName).value).Some?)
    ensures res.Continue? && r.functionName != "DropColumns" ==>
      var transformer := LoadPickle(env.store, env.cfg, TransformerBase, r.fileName.value);
      var out := env.oracles.transform(transformer.value, Get(s.data, r.fieldName).value).value;
      res.state.data == Integrate(s.data, r.fieldName, r.functionName, ToArray(out))
      && res.state.yTransformer == (if r.fieldName == env.yData then transformer else s.yTransformer)
  {
    if r.fieldName !in env.original then Stopped(NotSuitable, s)
    else if r.functionName == "DropColumns" then
      match DropColumns(s.data, r.fieldName)
      case None => Stopped(ReplayRaised, s)
      case Some(t) => Continue(ReplayState(t, s.yTransformer))
    else if r.fileName.None? then Stopped(ReplayRaised, s)
    else
      match LoadPickle(env.store, env.cfg, TransformerBase, r.fileName.value)
      case None => Stopped(ReplayRaised, s)
      case Some(transformer) =>
        var y := if r.fieldName == env.yData then Some(transformer) else s.yTransformer;
        match Get(s.data, r.fieldName)
        case None => Stopped(ReplayRaised, ReplayState(s.data, y))
        case Some(column) =>
          match env.oracles.transform(transformer, column)
          case None => Stopped(ReplayRaised, ReplayState(s.data, y))
          case Some(out) =>
            Continue(ReplayState(Integrate(s.data, r.fieldName, r.functionName, ToArray(out)), y))
  }

  /** The replay of the summary from a state: the outcome and the state it ended in. */
  function Replay(s: ReplayState, records: seq<StepRecord>, env: ReplayEnv): (res: (ReplayOutcome, ReplayState))
    ensures res.0.Replayed? ==> res.0.data == res.1.data
    decreases |records|
  {
    if records == [] then (Replayed(s.data), s)
    else
      match ReplayStep(s, records[0], env)
      case Stopped(outcome, last) => (outcome, last)
      case Continue(next) => Replay(next, records[1..], env)
  }

  /** Replaying a summary in two parts is replaying it whole: the steps run strictly in stored order. */
  lemma {:induction false} ReplayConcat(s: ReplayState, a: seq<StepRecord>, b: seq<StepRecord>, env: ReplayEnv)
    ensures Replay(s, a + b, env)
         == (var first := Replay(s, a, env);
             if first.0.Replayed? then Replay(first.1, b, env) else first)
    decreases |a|
  {
    if a == [] {
      assert a + b == b;
    } else {
      assert (a + b)[0] == a[0] && (a + b)[1..] == a[1..] + b;
      match ReplayStep(s, a[0], env)
      case Stopped(_, _) =>
      case Continue(next) => ReplayConcat(next, a[1..], b, env);
    }
  }

  /**
   * Fail closed: once the replay reaches a step whose field was not a column
   * of the test table, it answers `False`.
   */
  lemma NotSuitableAt(s: ReplayState, records: seq<StepRecord>, env: ReplayEnv, k: nat)
    requires k < |records| && records[k].fieldName !in env.original
    requires Replay(s, records[..k], env).0.Replayed?
    ensures Replay(s, records, env).0 == NotSuitable
  {
    ReplayConcat(s, records[..k], records[k..], env);
    assert records[..k] + records[k..] == records;
    var mid := Replay(s, records[..k], env).1;
    assert records[k..][0] == records[k];
  }

  /** A step that uses y, and is not a drop. */
  predicate UsesY(r: StepRecord, yData: string) {
    r.fieldName == yData && r.functionName != "DropColumns"
  }

  /**
   * After a complete replay the remembered y transformer is the stored
   * transformer of the last non-drop step on y, or the initial one if there is none.
   */
  lemma {:induction false} YTransformerLastWins(s: ReplayState, records: seq<StepRecord>, env: ReplayEnv)
    requires Replay(s, records, env).0.Replayed?
    ensures (forall i :: 0 <= i < |records| ==> !UsesY(records[i], env.yData)) ==>
      Replay(s, records, env).1.yTransformer == s.yTransformer
    ensures forall k ::
      (0 <= k < |records| && UsesY(records[k], env.yData)
       && (forall j :: k < j < |records| ==> !UsesY(records[j], env.yData))) ==>
      records[k].fileName.Some?
      && Replay(s, records, env).1.yTransformer
         == LoadPickle(env.store, env.cfg, TransformerBase, records[k].fileName.value)
    decreases |records|
  {
    if records != [] {
      var next := ReplayStep(s, records[0], env).state;
      YTransformerLastWins(next, records[1..], env);
      forall i | 1 <= i < |records| ensures records[i] == records[1..][i - 1] {
      }
    }
  }

  /** The model's X columns in the requested order, or None where pandas raises KeyError. */
  function SelectColumns(t: Table, names: seq<string>): (r: Option<seq<seq<Cell>>>)
    ensures r.Some? <==> forall i :: 0 <= i < |names| ==> names[i] in Names(t)
    ensures r.Some? ==> |r.value| == |names|
    ensures r.Some? ==> forall i :: 0 <= i < |names| ==> r.value[i] == Get(t, names[i]).value
  {
    if names == [] then Some([])
    else
      match (Get(t, names[0]), SelectColumns(t, names[1..]))
      case (Some(c), Some(rest)) =>
        assert forall i :: 1 <= i < |names| ==> names[i] == names[1..][i - 1];
        Some([c] + rest)
      case (_, _) =>
        assert forall i :: 1 <= i < |names| ==> names[i] == names[1..][i - 1];
        None
  }

  /** What `get_test_result` hands to the scorer, the 4022 error, or None after an exception. */
  datatype TestResponse = Ready(x: seq<seq<Cell>>, y: seq<Cell>) | Unsuitable(errorType: string, errorMsg: string) | NoResponse

  const NotSuitableMessage: string := "Data is not suitable for the model"

  /** The error mapping of `get_test_result` after the replay. */
  function MapReplay(outcome: ReplayOutcome, xData: seq<string>, yData: string): (r: TestResponse)
    ensures outcome == NotSuitable ==> r == Unsuitable("4022", NotSuitableMessage)
    ensures outcome == ReplayRaised ==> r == NoResponse
    ensures outcome.Replayed? ==>
      (r.Ready? <==> (forall i :: 0 <= i < |xData| ==> xData[i] in Names(outcome.data)) && yData in Names(outcome.data))
    ensures outcome.Replayed? && !r.Ready? ==> r == Unsuitable("4022", NotSuitableMessage)
    ensures r.Ready? ==>
      outcome.Replayed? && r.y == Get(outcome.data, yData).value
      && |r.x| == |xData| && forall i :: 0 <= i < |xData| ==> r.x[i] == Get(outcome.data, xData[i]).value
  {
    match outcome
    case NotSuitable => Unsuitable("4022", NotSuitableMessage)
    case ReplayRaised => NoResponse
    case Replayed(data) =>
      match (SelectColumns(data, xData), Get(data, yData))
      case (Some(x), Some(y)) => Ready(x, y)
      case (_, _) => Unsuitable("4022", NotSuitableMessage)
  }

  class ModelPerformance {
    const xData: seq<string>
    const yData: string
    var yDataTransformer: Option<Artifact>

    /** X and y are read from the stored training command by the caller. */
    constructor (xData: seq<string>, yData: string)
      ensures this.xData == xData && this.yData == yData && yDataTransformer.None?
    {
      this.xData := xData;
      this.yData := yData;
      yDataTransformer := None;
    }

    /** `_test_data_transformer`: replay the summary on the test table. */
    method TestDataTransformer(dataSet: Table, summary: seq<StepRecord>, store: map<string, Artifact>,
                               cfg: PathConfig, oracles: Oracles) returns (outcome: ReplayOutcome)
      modifies this`yDataTransformer
      ensures var res := Replay(ReplayState(dataSet, old(yDataTransformer)), summary,
                                ReplayEnv(Names(dataSet), yData, store, cfg, oracles));
        outcome == res.0 && yDataTransformer == res.1.yTransformer
    {
      var env := ReplayEnv(Names(dataSet), yData, store, cfg, oracles);
      var testDataColumns := Names(dataSet);
      var data := dataSet;
      var i := 0;
      while i < |summary|
        invariant 0 <= i <= |summary|
        invariant Replay(ReplayState(data, yDataTransformer), summary[i..], env)
               == Replay(ReplayState(dataSet, old(yDataTransformer)), summary, env)
      {
        assert summary[i..][0] == summary[i] && summary[i..][1..] == summary[i + 1..];
        var r := summary[i];
        if r.fieldName !in testDataColumns {
          return NotSuitable;
        }
        if r.functionName == "DropColumns" {
          var dropped := DropColumns(data, r.fieldName);
          if dropped.None? {
            return ReplayRaised;
          }
          data := dropped.value;
        } else {
          if r.fileName.None? {
            return ReplayRaised;
          }
          var transformer := LoadPickle(store, cfg, TransformerBase, r.fileName.value);
          if transformer.None? {
            return ReplayRaised;
          }
          if r.fieldName == yData {
            yDataTransformer := transformer;
          }
          var column := Get(data, r.fieldName);
          if column.None? {
            return ReplayRaised;
          }
          var out := oracles.transform(transformer.value, column.value);
          if out.None? {
            return ReplayRaised;
          }
          data := Integrate(data, r.fieldName, r.functionName, ToArray(out.value));
        }
        i := i + 1;
      }
      return Replayed(data);
    }

    /**
     * `get_test_result` up to scoring: an unsupported extension or a missing
     * summary ends in an exception (None), a failed replay or missing X/y
     * columns is 4022.
     */
    method GetTestResult(path: string, testData: Table, summary: Option<seq<StepRecord>>,
                         store: map<string, Artifact>, cfg: PathConfig, oracles: Oracles) returns (r: TestResponse)
      modifies this`yDataTransformer
      ensures !(EndsWith(path, ".csv") || EndsWith(path, ".json")) || summary.None? ==>
        r == NoResponse && yDataTransformer == old(yDataTransformer)
      ensures (EndsWith(path, ".csv") || EndsWith(path, ".json")) && summary.Some? ==>
        var res := Replay(ReplayState(testData, old(yDataTransformer)), summary.value,
                          ReplayEnv(Names(testData), yData, store, cfg, oracles));
        r == MapReplay(res.0, xData, yData) && yDataTransformer == res.1.yTransformer
    {
      if !(EndsWith(path, ".csv") || EndsWith(path, ".json")) || summary.None? {
        return NoResponse;
      }
      var outcome := TestDataTransformer(testData, summary.value, store, cfg, oracles);
      return MapReplay(outcome, xData, yData);
    }
  }
}
