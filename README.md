# Analytics-Module-DL: the column-level preprocessing pipeline in Dafny

This project models the preprocessing core of the Analytics-Module-DL service. It covers:

- **Parameter coercion.** Loosely typed request values become transformer parameters. The preprocessing chain is `_change_transformer_params`; the training chain is `_change_params`, with `check_params`.
- **Shape classification and integration.** The shape of a transformer's output decides how it rejoins the table: overwrite in place, skip for `Normalizer`, or expand into `<field>_0 .. <field>_{k-1}` and drop the source column.
- **The fit runner** (`PreprocessTask`). It fans comma-separated fields out and names artifacts `T_<pk>_<n>.pickle` from a counter. It accumulates the summary (`real_final_list`) and fails the job on the first exception.
- **The preview runner** (`TestPreprocessor`). It shows at most five values. Drops change the preview table, transforms never write back, and the first error replaces the results.
- **Replay** (`ModelPerformance`). It walks a stored summary in order, calling `transform` and never fitting. It fails closed on a field the test table lacks, and it maps the outcome to the 4022 error.
- **Request validators.** These are the mandatory-key checks, `check_post_mode`, `check_request_body_original_patch`, `check_patch_mode` and the train-parameter check.
- **Profiler decision rules** (`DataSummary`). These are the count/pie/bar choice, numerical versus categorical typing, reader selection by path, the row count and the per-column statistics list.
- **The local-file browser** (`Localfiles`). It covers the `"../"` guard and name dispatch, hidden-name filtering and the five-sample cap.

## How the model is built

A DataFrame is a `seq<Column>` of `(name, values)` pairs. A cell is a number, a text or `Missing`. A transformer's output is a rank-1 vector, a dense matrix or a sparse matrix.

The scikit-learn side is a bundle of function-typed parameters (`CustomCall.Oracles`): registry resolution, `fit_transform`, `transform` and `literal_eval`. The pickle store is a `map` from joined path to artifact.

Where the source updates an object step by step, the model is a class whose methods are loops. Each loop is proved against a recursive specification function, and the properties are proved as lemmas about that function. The classes are:

- `PreprocessTask` (`realFinalList`);
- `TestPreprocessor` (`testData`, `testTotalResult`);
- `ModelPerformance` (`yDataTransformer`);
- `InspectUserRequest` (`trainParam`);
- `Estimator` (`params`);
- `DataSummary`;
- `Localfiles`.

The specification functions return the state reached when a step fails as well as the verdict, so behaviour on failure is part of the model. Examples are orphaned artifacts, summary records already appended, and parameters already assigned.

Modules follow the source files:

| module | file |
|---|---|
| `CustomCall` | custom_call.dfy |
| `PreprocessBase` | preprocess_base.dfy |
| `PreprocessHelper` | preprocess_helper.dfy |
| `PreprocessTester` | preprocess_tester.dfy |
| `TestHelper` | test_helper.dfy |
| `TrainHelper` | train_helper.dfy |
| `DataSummary` | data_summary.dfy |
| `Localfiles` | localfiles.dfy |

`Wrappers` (Option and Result) and `Strings` (ASCII string helpers standing in for Python's `str` methods) support them.

### Behaviour of the code worth knowing (the model follows the code)

- **List parameters.** A `[...]` value has every space deleted and is split on commas, so `"[]"` gives `[""]`.
- **Letter case.** The preprocessing chain lower-cases every value first; the training chain keeps case. Lemma `TrainHelper.KeepsCase` shows the two side by side.
- **Unbalanced brackets.** `"abc{"` matches no branch of the parameter conversion and is assigned as the string `"abc{"`; it is not a parameter-syntax error.
- **Error codes.** Errors are numeric codes ("4101", "4102", "4104", "4022", "4004") or a raised Http404.
- **Preview drops.** A preview drop removes the column from the preview table itself, so a later request in the same preview that names that field gets 4104.
- **Failing fit jobs.** When a request fails, the transformers already dumped stay in the store and the records already appended stay in `real_final_list`; only the output file is not written.
- **The train-parameter condition.** It is written `library == "sklearn" or "lightgbm"`, which is always truthy, so `y` is required for every algorithm.

## Model

| member | source | states |
|---|---|---|
| CustomCall.Get | API/services/data_preprocess/preprocess_helper.py:265-267 | `data[name]` exists exactly when the label is a column, and then it is that column's values |
| CustomCall.DropColumns | API/services/utils/custom_call.py:160-175 | defined exactly when the label is present (else KeyError); the label is gone afterwards, every other label survives, and no new column appears |
| CustomCall.RemoveNamedMembers | API/services/utils/custom_call.py:174 | a column survives the drop exactly when it was in the table under another label |
| CustomCall.DropColumnsExact | API/services/utils/custom_call.py:173-175 | with distinct labels, dropping column k gives exactly the other columns in their order |
| CustomCall.RemoveNamedAppend | API/services/utils/custom_call.py:174 | dropping from a concatenation drops from each part |
| CustomCall.KeepUnnamedMembers | API/services/utils/custom_call.py:174 | a column is kept by a drop of several labels exactly when it was in the table under a label not among them |
| CustomCall.RemoveThenKeep | API/services/utils/custom_call.py:174 | dropping one label and then several is dropping all of them at once |
| CustomCall.SetColumnInPlace | API/services/data_preprocess/preprocess_helper.py:280 | overwriting a present column keeps every label and position and changes only that column |
| CustomCall.ToArray | API/services/utils/custom_call.py:130-134 | the result is dense with the same shape; dense input is returned unchanged and sparse input keeps its rows |
| CustomCall.NewColumns | API/services/utils/custom_call.py:154-157 | exactly `width` names; name i is the field, "_" and `str(i)`: a canonical decimal (no leading zero) that parses back to i, so width 0 gives [] |
| CustomCall.NewColumnsDistinct | API/services/utils/custom_call.py:154-157 | the new names are pairwise distinct and never equal the field name |
| Strings.NatToStringCanonical | API/services/utils/custom_call.py:154-157 | `str(i)` is a canonical decimal: "0" or digits without a leading zero |
| CustomCall.GetBaseObject | API/services/utils/custom_call.py:71-87 | a fresh estimator with the resolved default parameters and the requested class, or None exactly when resolution fails |
| CustomCall.ResolveBase | API/services/utils/custom_call.py:92-95 | "MODEL_DIR" and "PREPROCESS_TRANSFORMER_DIR" resolve to their configured directories; any other base is used verbatim |
| CustomCall.DumpPickle | API/services/utils/custom_call.py:103-111 | returns the joined path; the store gains exactly that key; loading with the same base and name gives the dumped object back; other entries are untouched |
| PreprocessBase.Coerce | API/services/data_preprocess/preprocess_base.py:41-77 | errors carry the lower-cased string and arise only from dotted digits or a tuple literal; a fall-through string is the lower-cased text; lists never come from a value starting "(" |
| PreprocessBase.CoerceFloatBranch | API/services/data_preprocess/preprocess_base.py:48-51 | digits around one dot become the float they denote |
| PreprocessBase.CoerceIntBranch | API/services/data_preprocess/preprocess_base.py:54-56 | dot-free digits become the integer they denote |
| PreprocessBase.CoerceBoolBranch | API/services/data_preprocess/preprocess_base.py:57-59 | "true"/"false" in any case become the boolean |
| PreprocessBase.CoerceNoneBranch | API/services/data_preprocess/preprocess_base.py:60-61 | "none" in any case becomes None |
| PreprocessBase.CoerceListBranch | API/services/data_preprocess/preprocess_base.py:62-64 | a dot-free value starting "[" becomes ListItems of the lower-cased text |
| PreprocessBase.CoerceTupleBranch | API/services/data_preprocess/preprocess_base.py:65-67 | a dot-free value starting "(" becomes what literal_eval returns, or ParameterSyntaxError with the text where it raises |
| PreprocessBase.CoerceNaNBranch | API/services/data_preprocess/preprocess_base.py:68-69 | "nan" in any case becomes NaN |
| PreprocessBase.CoerceStringBranch | API/services/data_preprocess/preprocess_base.py:70-71 | a value no earlier test matches is assigned as the lower-cased string |
| PreprocessBase.ListItems | API/services/data_preprocess/preprocess_base.py:63 | at least one item; joined with "," the items are the bracket-stripped text with every space deleted, and no item holds a comma or a space |
| Strings.RemoveCharCounts | API/services/data_preprocess/preprocess_base.py:63 | `replace(" ", "")` deletes exactly the spaces: the result holds every other character as often as the input, no space, and is shorter by the number of spaces |
| Strings.RemoveCharAppend | API/services/data_preprocess/preprocess_base.py:63 | deleting a character commutes with concatenation |
| Strings.SplitPiecesFrom | API/services/data_preprocess/preprocess_base.py:63 | every character of a piece of `split(",")` occurs in the split text |
| PreprocessBase.DotTestedFirst | API/services/data_preprocess/preprocess_base.py:48-53 | a dotted value becomes a float, a syntax error or the lower-cased string; "[0.5, 1]" never reaches the list branch |
| PreprocessBase.ManyDotsIsSyntaxError | API/services/data_preprocess/preprocess_base.py:49-50 | digits with two or more dots pass the dot test, but `float()` fails, giving ParameterSyntaxError with the value |
| PreprocessBase.CoerceNatRoundTrip | API/services/data_preprocess/preprocess_base.py:54-56 | a non-negative integer, as JSON int or as digits, comes back as itself |
| PreprocessBase.NegativeIntStaysString | API/services/data_preprocess/preprocess_base.py:54-71 | a negative integer matches no branch and is assigned as its string "-n" |
| PreprocessBase.CoerceBool | API/services/data_preprocess/preprocess_base.py:57-59 | JSON booleans survive `str()` and `lower()` and come back as booleans |
| PreprocessBase.CoerceNull | API/services/data_preprocess/preprocess_base.py:60-61 | JSON null survives `str()` and `lower()` and comes back as None |
| PreprocessBase.CoerceEmptyList | API/services/data_preprocess/preprocess_base.py:62-64 | "[]" and "[ ]" become the one-item list [""] |
| PreprocessBase.CoerceNaN | API/services/data_preprocess/preprocess_base.py:68-69 | "NaN" becomes NaN |
| PreprocessBase.QuarterValue | API/services/data_preprocess/preprocess_base.py:49-51 | `float("0.25")` is 25/100: the dot-free digits read 25, with two digits after the dot |
| PreprocessBase.CoerceDecimal | API/services/data_preprocess/preprocess_base.py:49-51 | "0.25" is the float 0.25 |
| PreprocessBase.ApplyParams | API/services/data_preprocess/preprocess_base.py:41-71 | keys not requested keep their value, and no key outside the object or the request appears |
| PreprocessBase.ApplyParamsSucceeds | API/services/data_preprocess/preprocess_base.py:41-73 | the loop completes exactly when every value converts, and then every requested key is assigned |
| PreprocessBase.ApplyParamsAssigns | API/services/data_preprocess/preprocess_base.py:41-71 | on success a key holds the coercion of its last occurrence |
| PreprocessBase.ApplyParamsNoRollback | API/services/data_preprocess/preprocess_base.py:41-77 | when item i is the first to fail, the assignments of the items before it stay and the error names item i's value |
| PreprocessBase.ChangeTransformerParams | API/services/data_preprocess/preprocess_base.py:25-77 | the transformer's parameters become the ApplyParams result in place, and an error is reported exactly when a value fails |
| PreprocessHelper.Absent | API/services/data_preprocess/preprocess_helper.py:83 | the set difference of mandatory and present keys, as a sequence |
| PreprocessHelper.AbsentEmpty | API/services/data_preprocess/preprocess_helper.py:83-84 | when every mandatory key is present, the report is empty |
| PreprocessHelper.FirstMissingItemKey | API/services/data_preprocess/preprocess_helper.py:86-89 | None exactly when every item has every second-level key; when item i is the first one lacking a key, the answer is the first wanted key item i lacks |
| PreprocessHelper.MandatoryKeyExistsPreprocessedPost | API/services/data_preprocess/preprocess_helper.py:80-90 | True exactly when the top-level keys are exactly [original_data_sequence_pk, request_data] in order and every item has both item keys; with the right top-level keys, the first item key missing from the first incomplete item |
| PreprocessHelper.ReorderedKeysReportEmpty | API/services/data_preprocess/preprocess_helper.py:82-84 | reordered or extra top-level keys are reported as the empty key |
| PreprocessHelper.MissingTopLevelKeyReported | API/services/data_preprocess/preprocess_helper.py:82-84 | a body lacking only request_data is reported as "request_data" |
| PreprocessHelper.FanOut | API/services/data_preprocess/preprocess_helper.py:179-182 | at least one field (its contents are stated by FanOutVerbatim and FanOutSplits) |
| PreprocessHelper.FanOutVerbatim | API/services/data_preprocess/preprocess_helper.py:181-182 | a comma-free name is used verbatim, blanks included |
| PreprocessHelper.FanOutSplits | API/services/data_preprocess/preprocess_helper.py:179-180 | a name with commas gives one field per comma-separated part, field i being `Strip` of part i; no field holds a comma or starts or ends with white space; unchanged parts join back to the name |
| Strings.StripSurrounds | API/services/data_preprocess/preprocess_helper.py:180 | `x.strip()` is a slice of x with only white space before and after it, and it is empty exactly when x is all white space |
| Strings.StripKeepsOut | API/services/data_preprocess/preprocess_helper.py:180 | stripping adds no character: a comma-free part stays comma-free |
| PreprocessHelper.FirstAbsentField | API/services/data_preprocess/preprocess_helper.py:176-186 | None exactly when every fanned-out field is a column; when request i is the first with an absent field, the answer is the first of its fanned-out fields that is not a column |
| PreprocessHelper.CheckFields | API/services/data_preprocess/preprocess_helper.py:176-187 | the nested loop with early return computes FirstAbsentField |
| PreprocessHelper.CheckPostMode | API/services/data_preprocess/preprocess_helper.py:145-187 | 4101 with the key the mandatory check reports; then Http404 or 4004 from the lookup; then Valid exactly when every field exists, else 4102 with the first absent field |
| PreprocessHelper.Expanded | API/services/data_preprocess/preprocess_helper.py:322-325 | the appended block is labelled exactly `_new_columns(field, width)` |
| PreprocessHelper.IntegrateInPlace | API/services/data_preprocess/preprocess_helper.py:275-300 | a width-1 or rank-1 output overwrites the column in place; a width-1 Normalizer output leaves the table unchanged |
| PreprocessHelper.IntegrateExpands | API/services/data_preprocess/preprocess_helper.py:302-327 | any other output appends `<field>_i` after all columns, then removes the field: the labels are the old ones without the field, followed by the new ones |
| PreprocessHelper.ExpandedAvoidsField | API/services/data_preprocess/preprocess_helper.py:326-327 | removing the field after the concatenation never removes an expanded column |
| PreprocessHelper.TrainDataTransformer | API/services/data_preprocess/preprocess_helper.py:238-331 | fails exactly when the field is not a column, `fit_transform` raises, or a class-recording branch finds no vocabulary; on success the artifact is the transformer fitted on that column, the table is the integration of the densified output, and the classes are the vocabulary exactly when the branch records them |
| PreprocessHelper.NormalizerSkipped | API/services/data_preprocess/preprocess_helper.py:277-278 | a width-1 Normalizer leaves the table alone and records no classes |
| PreprocessHelper.DropRecords | API/services/data_preprocess/preprocess_helper.py:359-366 | one DropColumns record per field, with no file name and no classes |
| PreprocessHelper.DropFields | API/services/data_preprocess/preprocess_helper.py:357-369 | appends one drop record per field dropped, in field order; the table left is the input without the columns dropped so far, every other column in its order; on failure the next field is not a column of that table; on success one record per field |
| PreprocessHelper.DropFieldsRemoves | API/services/data_preprocess/preprocess_helper.py:357-358 | after a successful drop none of the fields is a column, no new label appears, and a column survives exactly when it was in the table under a label not among the fields, in its order |
| PreprocessHelper.DropFieldsSucceeds | API/services/data_preprocess/preprocess_helper.py:357-369 | distinct fields that are all columns are all dropped without failure |
| PreprocessHelper.Advance | API/services/data_preprocess/preprocess_helper.py:421-442 | fitting a field replaces the table by the fit's table, increments save_n by one, appends one record naming `T_<pk>_<n>.pickle`, and stores the artifact at that path |
| PreprocessHelper.FitFields | API/services/data_preprocess/preprocess_helper.py:415-443 | records only grow (the earlier ones are a prefix); new record i names field i, the function name and pk, and the artifact `T_<pk>_<save_n+i+1>.pickle`; save_n grows by the number added; on failure it stopped at the first unrecorded field, whose TrainDataTransformer is None; on success one record per field; the store only gains keys |
| PreprocessHelper.FitFieldsOne | API/services/data_preprocess/preprocess_helper.py:421-442 | one field: the loop fails exactly when that field's fit does, leaving the state as it was; otherwise the state is Advance's, whose table is the fit's table |
| PreprocessHelper.FitFieldsConcat | API/services/data_preprocess/preprocess_helper.py:415-443 | the loop over a + b is the loop over a, then, unless that failed, the loop over b from the state it reached |
| PreprocessHelper.ArtifactNames | API/services/data_preprocess/preprocess_helper.py:422 | n names |
| PreprocessHelper.FileNamesConcat | API/services/data_preprocess/preprocess_helper.py:359-368 | the file names of appended records are appended |
| PreprocessHelper.FileNamesOfDrops | API/services/data_preprocess/preprocess_helper.py:363 | drop records carry no file name |
| PreprocessHelper.AdvanceNumbered | API/services/data_preprocess/preprocess_helper.py:421-442 | fitting a field keeps the invariant: the record file names are `T_<pk>_1..T_<pk>_<save_n>` and each is stored |
| PreprocessHelper.FitFieldsNumbered | API/services/data_preprocess/preprocess_helper.py:415-443 | the fields loop keeps that invariant, whether or not a field fails |
| PreprocessHelper.DropKeepsNumbering | API/services/data_preprocess/preprocess_helper.py:488-491 | a drop request neither advances the counter nor adds a file name |
| PreprocessHelper.FitRequestNumbered | API/services/data_preprocess/preprocess_helper.py:481-495 | one request keeps the numbering invariant |
| PreprocessHelper.FitRequestsNumbered | API/services/data_preprocess/preprocess_helper.py:472-495 | the whole run keeps it: artifacts are numbered 1..k in record order with no gaps, even when the run fails |
| PreprocessHelper.FitRequestsOneRecordPerField | API/services/data_preprocess/preprocess_helper.py:475-495 | a successful run appends exactly one record per fanned-out field, and the j-th new record names the j-th fanned-out field across the requests |
| PreprocessHelper.FitRequestFields | API/services/data_preprocess/preprocess_helper.py:475-495 | a successful request appends the records of its fanned-out fields, in order |
| PreprocessHelper.FitRequestsFailFast | API/services/data_preprocess/preprocess_helper.py:483-485 | an unknown function id or a failing parameter conversion fails the run at once, with nothing added |
| PreprocessHelper.FitRequestTable | API/services/data_preprocess/preprocess_helper.py:481-495 | one request: an unknown function id fails with the state unchanged; a drop keeps save_n and the store and, when it succeeds, leaves exactly the columns not named by the fanned-out fields, in order; otherwise a transformer that cannot be built fails with the state unchanged and one that is built runs the fields loop |
| PreprocessHelper.FitRequestsConcat | API/services/data_preprocess/preprocess_helper.py:472-495 | the run over a + b is the run over a, then, unless that failed, the run over b from the state it reached |
| PreprocessHelper.FitRequestsOne | API/services/data_preprocess/preprocess_helper.py:472-495 | the run over one request is that request |
| PreprocessHelper.PreprocessTask.TaskDropColumns | API/services/data_preprocess/preprocess_helper.py:333-369 | the drop loop appends to `real_final_list` and returns the DropFields result |
| PreprocessHelper.PreprocessTask.PrepareTransformer | API/services/data_preprocess/preprocess_helper.py:396-403 | a fresh transformer with the defaults overridden by the condition, or None when resolution or conversion fails |
| PreprocessHelper.PreprocessTask.RecordFit | API/services/data_preprocess/preprocess_helper.py:421-442 | one fitted field moves the task exactly as Advance says: counter, dumped artifact, appended record |
| PreprocessHelper.PreprocessTask.FitFieldsLoop | API/services/data_preprocess/preprocess_helper.py:415-443 | the fields loop reaches FitFields' verdict and state, the early return on the first failing field included |
| PreprocessHelper.PreprocessTask.TaskResultStep | API/services/data_preprocess/preprocess_helper.py:371-443 | the fields loop produces the FitTransformRequest state: table, counter, records and store |
| PreprocessHelper.PreprocessTask.TaskResult | API/services/data_preprocess/preprocess_helper.py:445-512 | runs FitRequests from save_n 0. On failure the result is False, no file is saved, and the orphan artifacts and records stay. On success the result holds `P_<pk>.json` in the output directory, the summary and the final table FitRequests reaches (request by request by FitRequestsConcat, each by FitRequestTable, fields by FitFieldsConcat and FitFieldsOne) |
| PreprocessTester.MandatoryKeyExistsOriginalPatch | API/machine_learning/services/data_preprocess/preprocess_tester.py:77-86 | "request_test" when that key is missing; else True exactly when every item has both item keys, and otherwise the first key missing from the first incomplete item |
| PreprocessTester.CheckPreviewRequests | API/machine_learning/services/data_preprocess/preprocess_tester.py:322-342 | Valid exactly when every function id is known and every fanned-out field is a column; otherwise the verdict of the first request that does not pass (Http404 or the 4102 naming its first absent field) |
| PreprocessTester.RequestVerdict | API/machine_learning/services/data_preprocess/preprocess_tester.py:325-341 | Http404 exactly for an unknown id; passes exactly when the id is known and every fanned-out field is a column; else 4102 naming the first fanned-out field that is not a column |
| PreprocessTester.CheckRequestBodyOriginalPatch | API/machine_learning/services/data_preprocess/preprocess_tester.py:300-342 | 4101 with the missing key, otherwise the request loop |
| PreprocessTester.UnknownFunctionRaises404 | API/machine_learning/services/data_preprocess/preprocess_tester.py:324-330 | an unknown function id raises Http404 once every earlier request has passed |
| PreprocessTester.ConvertToReturnShape | API/machine_learning/services/data_preprocess/preprocess_tester.py:108-135 | an output with fewer than two rows raises (the `after_[1]` IndexError); otherwise min(5, rows) values, or none for a rank-1 text output |
| PreprocessTester.IndexErrorMessage | API/machine_learning/services/data_preprocess/preprocess_tester.py:111 | the IndexError text of `after_[1]` on a short output: for a dense array numpy's "index 1 is out of bounds for axis 0 with size " followed by the row count, for a sparse matrix scipy's "row index (1) out of range" |
| PreprocessTester.ShowsFirstFive | API/machine_learning/services/data_preprocess/preprocess_tester.py:111-134 | at most five values, the first ones in order. A rank-1 output shows its scalars as strings, a width-1 output its values, any other width its rows as strings |
| PreprocessTester.TestTransformer | API/machine_learning/services/data_preprocess/preprocess_tester.py:137-181 | at most five values; fails exactly when the fit raises or the output is too short, reporting [field, transformer class, message] with the fit's own message, or for a short output the IndexError text of IndexErrorMessage |
| PreprocessTester.PreviewDrop | API/machine_learning/services/data_preprocess/preprocess_tester.py:197-215 | earlier results are a prefix; new record i is the five-blank record of field i; the preview table left is the input without the columns dropped so far, every other column in its order; it raises only on a field that is not a column of that table, and otherwise records every field |
| PreprocessTester.PreviewDropRemoves | API/machine_learning/services/data_preprocess/preprocess_tester.py:201-204 | a drop that does not raise removes every field from the preview table, adds no label, and keeps exactly the columns whose label is not among the fields, in their order |
| PreprocessTester.PreviewDropSucceeds | API/machine_learning/services/data_preprocess/preprocess_tester.py:197-215 | distinct fields that are all in the preview table never raise |
| PreprocessTester.PreviewFields | API/machine_learning/services/data_preprocess/preprocess_tester.py:262-297 | never changes the preview table; earlier results are a prefix; new record i is field i with the function name, condition and shown fit; it stops only with a 4104 at the first unrecorded field: "Field Name is Not Exist" when it is not a column, else the transformer's detail; on success one record per field |
| PreprocessTester.PreviewTransform | API/machine_learning/services/data_preprocess/preprocess_tester.py:236-297 | a non-drop preview never writes the preview table back |
| PreprocessTester.PreviewRequests | API/machine_learning/services/data_preprocess/preprocess_tester.py:366-390 | records only grow, in request order |
| PreprocessTester.PreviewRequestsConcat | API/machine_learning/services/data_preprocess/preprocess_tester.py:366-390 | previewing a + b is previewing a, then, while still running, b from the preview table and results it reached |
| PreprocessTester.PreviewRequestsOne | API/machine_learning/services/data_preprocess/preprocess_tester.py:366-390 | previewing one request is that request's preview |
| PreprocessTester.ParameterErrorFirst | API/machine_learning/services/data_preprocess/preprocess_tester.py:242-248 | a parameter syntax error stops with 4102 and its detail before any field is looked at |
| PreprocessTester.DroppedFieldIsNotExist | API/machine_learning/services/data_preprocess/preprocess_tester.py:266-269 | dropping a field and then previewing it gives 4104 [field, function, "Field Name is Not Exist"] |
| PreprocessTester.TestPreprocessor.TestResultDropColumns | API/machine_learning/services/data_preprocess/preprocess_tester.py:183-215 | the drop loop updates `test_data` and `test_total_result` as PreviewDrop says |
| PreprocessTester.TestPreprocessor.TestResult | API/machine_learning/services/data_preprocess/preprocess_tester.py:217-297 | `test_data` is unchanged, and the records and stop reason are PreviewTransform's |
| PreprocessTester.TestPreprocessor.TestResultAll | API/machine_learning/services/data_preprocess/preprocess_tester.py:344-390 | returns the accumulated records only when no request fails, otherwise the first error or the exception |
| TestHelper.ReplayStep | API/machine_learning/services/model_test/test_helper.py:62-102 | a field missing from the original columns stops with False; a drop continues exactly when the field is in the table, and then the table is the drop and the y transformer is kept; a transform continues exactly when its pickle loads, the field is a column and `transform` succeeds, and then the table is the integration of the densified output and the y transformer is the loaded one exactly for the y field; a step that stops after the guard reports the exception |
| TestHelper.Replay | API/machine_learning/services/model_test/test_helper.py:62-103 | a completed replay returns the table of the state it ends in |
| TestHelper.ReplayConcat | API/machine_learning/services/model_test/test_helper.py:62 | replaying a + b is replaying a and then, if it completed, b: steps run strictly in stored order |
| TestHelper.NotSuitableAt | API/machine_learning/services/model_test/test_helper.py:58-69 | replay answers False at the first step whose field was not a column of the original test table |
| TestHelper.YTransformerLastWins | API/machine_learning/services/model_test/test_helper.py:78-79 | after a replay the y transformer is the artifact of the last non-drop step on y, or the initial one if there is none |
| TestHelper.SelectColumns | API/machine_learning/services/model_test/test_helper.py:130 | `data[X]` is defined exactly when every X name is a column, and then column i holds the values of X name i |
| TestHelper.MapReplay | API/machine_learning/services/model_test/test_helper.py:125-162 | False maps to 4022 "Data is not suitable for the model"; an exception gives None; a replayed table is ready exactly when X and y are columns, else 4022; a ready answer holds the y column and the X columns in order |
| TestHelper.ModelPerformance.TestDataTransformer | API/machine_learning/services/model_test/test_helper.py:57-103 | the loop returns Replay's outcome and leaves `y_data_transformer` as Replay's final state says |
| TestHelper.ModelPerformance.GetTestResult | API/machine_learning/services/model_test/test_helper.py:106-162 | an unknown extension or a missing summary gives None; otherwise MapReplay of the replay |
| TrainHelper.InspectData | API/services/model_train/train_helper.py:39-46 | True exactly when no column has object dtype |
| TrainHelper.TrainCoerce | API/services/model_train/train_helper.py:61-87 | a fall-through string keeps its case; a failure comes only from dotted digits, a leading "-" or a dict literal |
| TrainHelper.TrainFloatBranch | API/services/model_train/train_helper.py:66-69 | digits around one dot become the float; more dots make `float()` raise, which stops the loop |
| TrainHelper.TrainDottedString | API/services/model_train/train_helper.py:70-71 | a dotted value that is not all digits stays the string, case kept |
| TrainHelper.TrainIntBranch | API/services/model_train/train_helper.py:72-74 | dot-free digits become the integer |
| TrainHelper.TrainNegativeBranch | API/services/model_train/train_helper.py:75-77 | a dot-free value starting "-" becomes the negative integer, or stops the loop where `int()` raises |
| TrainHelper.TrainNoneBranch | API/services/model_train/train_helper.py:78-79 | "none" in any case becomes None |
| TrainHelper.TrainBoolBranch | API/services/model_train/train_helper.py:80-82 | "true"/"false" in any case become the boolean |
| TrainHelper.TrainDictBranch | API/services/model_train/train_helper.py:83-85 | a dot-free value starting "{" is whatever literal_eval makes of it |
| TrainHelper.TrainStringBranch | API/services/model_train/train_helper.py:86-87 | a value no earlier test matches stays the string with its case |
| TrainHelper.TrainIntRoundTrip | API/services/model_train/train_helper.py:72-77 | every JSON integer, negative ones included, comes back as itself |
| TrainHelper.KeepsCase | API/services/model_train/train_helper.py:86-87 | "Log2" stays "Log2" here, where the preprocessing chain gives "log2" |
| TrainHelper.TrainBool | API/services/model_train/train_helper.py:80-82 | JSON booleans survive `str()` and come back as booleans |
| TrainHelper.TrainNull | API/services/model_train/train_helper.py:78-79 | JSON null survives `str()` and comes back as None |
| TrainHelper.TrainNoneAnyCase | API/services/model_train/train_helper.py:78-79 | "NONE" is None |
| TrainHelper.TrainMinusCases | API/services/model_train/train_helper.py:66-77 | "-abc" makes `int()` raise; "-1.5" fails the dot test and stays a string |
| TrainHelper.TrainApply | API/services/model_train/train_helper.py:61-87 | for any conversion: keys not requested keep their value, and no key outside the model or the request appears |
| TrainHelper.TrainApplyCompletes | API/services/model_train/train_helper.py:61-88 | the loop completes exactly when every value converts, and then every key is assigned |
| TrainHelper.TrainApplyStopsSilently | API/services/model_train/train_helper.py:89-91 | when item i raises first, the result is the assignment of the items before it, with no error reported |
| TrainHelper.ChangeParams | API/services/model_train/train_helper.py:50-91 | the model's parameters become the TrainApply result under the training conversion (TrainCoerce), in place |
| TrainHelper.FirstBroken | API/services/model_train/train_helper.py:139-152 | True exactly when no mandatory key is broken; otherwise the first broken key, with all keys before it sound |
| TrainHelper.MandatoryKeyExistsModelsPost | API/services/model_train/train_helper.py:130-152 | True exactly when all three keys are there and train_data names an original or a preprocessed data set; otherwise one of the three keys |
| TrainHelper.TrainDataWithoutIdReported | API/services/model_train/train_helper.py:142-151 | a train_data without a data-set key is reported as "train_data" |
| TrainHelper.CheckPatchMode | API/services/model_train/train_helper.py:383-400 | Valid exactly when the mode is STOP, TEST or RESTART and a TEST carries test_data_path; ("4101","mode") when it is missing; ("4102", mode) when it is not allowed; ("4101","test_data_path") for TEST without a path |
| TrainHelper.PatchModeIsCaseSensitive | API/services/model_train/train_helper.py:389-394 | "stop" is rejected with 4102; TEST without a path is 4101 "test_data_path" |
| TrainHelper.Lookup | API/services/model_train/train_helper.py:300 | a key is found exactly when the request names it |
| TrainHelper.OverlayLookup | API/services/model_train/train_helper.py:303-309 | after `update` a key holds its last requested value, or else its earlier value |
| TrainHelper.DefaultItems | API/services/model_train/train_helper.py:304-308 | each fit parameter with its default, None where there is none |
| TrainHelper.Stringify | API/services/model_train/train_helper.py:310-312 | booleans and None become their `str()`; any other value is unchanged |
| TrainHelper.StoredTrainParamFacts | API/services/model_train/train_helper.py:303-313 | the stored keys are the fit parameters and the requested names; requested values win over defaults; no bool or None remains |
| PreprocessHelper.AbsentFirst | API/services/data_preprocess/preprocess_helper.py:83 | the first requested name that is not a fit argument heads the report |
| TrainHelper.TrainParamVerdict | API/services/model_train/train_helper.py:285-302 | Valid exactly when every name is a fit argument and y is given and is a column; 4102 with the first name that is not a fit argument; otherwise 4101 "y" when y is missing, and 4102 with str(y) when y is not a column |
| TrainHelper.InspectUserRequest.FirstUnknownName | API/services/model_train/train_helper.py:285-290 | None exactly when every requested name is a fit argument; otherwise the first name that is not |
| TrainHelper.InspectUserRequest.BuildTrainParam | API/services/model_train/train_helper.py:303-313 | the dictionary built by the three loops is StoredTrainParam |
| TrainHelper.InspectUserRequest.CheckTrainParameters | API/services/model_train/train_helper.py:274-313 | the verdict is TrainParamVerdict; on success `train_param` is the stored form, otherwise it is untouched |
| TrainHelper.NoneBranchNeverFires | API/services/model_train/train_helper.py:456-461 | as written, no string is ever normalised to None, and "None" becomes "none" |
| TrainHelper.NormalizeParam | API/services/model_train/train_helper.py:456-462 | the corrected rule (see ## Findings): non-strings pass unchanged; strings give a bool exactly for true/false in any case, true exactly for "true"; None exactly for none in any case; otherwise the lower-cased text |
| TrainHelper.NormalizeParamAsWritten | API/services/model_train/train_helper.py:456-461 | the rule as written: non-strings pass unchanged; a string gives a bool exactly when its lower-cased text is true or false, true exactly for "true"; any other string gives its lower-cased text |
| TrainHelper.NormalizeParamFixesNone | API/services/model_train/train_helper.py:460-461 | "None" is None under the corrected rule, unlike the rule as written |
| TrainHelper.CheckParams | API/services/model_train/train_helper.py:453-463 | the keys are exactly the requested ones, each holding its last value normalised under the corrected None rule (see ## Findings) |
| DataSummary.LastIndex | API/services/data_preprocess/data_summary.py:56 | the position of the last occurrence, or None when the character does not occur |
| DataSummary.Extension | API/services/data_preprocess/data_summary.py:56-58 | `os.path.splitext(path)[1]`: a dot-led suffix starting at the last dot of the last path component when a character other than a dot precedes that dot in the component; empty exactly when no such dot exists |
| DataSummary.ExtensionFrom | API/services/data_preprocess/data_summary.py:56-58 | the extension is determined by its dot: where `splitext` would cut at a dot, the extension is the rest of the path from it |
| DataSummary.GetData | API/services/data_preprocess/data_summary.py:55-64 | CSV exactly for ".csv"; lines exactly for ".json" with an 'O' anywhere; index-oriented exactly for ".json" with a 'P' and no 'O' |
| DataSummary.OriginalTestSeesWholePath | API/services/data_preprocess/data_summary.py:59-61 | the 'O' test reads the whole path, so "/ORIGINAL/P_1.json" is read as lines |
| DataSummary.PreprocessedJsonIsIndexOriented | API/services/data_preprocess/data_summary.py:62-63 | "/data/P_1.json" is read index-oriented |
| DataSummary.UnmarkedJsonHasNoReader | API/services/data_preprocess/data_summary.py:58-64 | a JSON path with neither letter has no reader |
| DataSummary.CsvIsReadAsCsv | API/services/data_preprocess/data_summary.py:56-57 | "/data/x.csv" is read as CSV |
| DataSummary.HiddenNameHasNoExtension | API/services/data_preprocess/data_summary.py:56-58 | "/data/.csv" has no extension and no reader |
| DataSummary.SizeInfo | API/services/data_preprocess/data_summary.py:75-77 | the row count, which is the length of every column |
| DataSummary.Distinct | API/services/data_preprocess/data_summary.py:23 | the same values, each once |
| DataSummary.DistinctAllUnique | API/services/data_preprocess/data_summary.py:23 | `len(set(col)) == len(col)` exactly when no value repeats |
| DataSummary.DropMissing | API/services/data_preprocess/data_summary.py:26 | the non-missing values; the length drops by the number of missing ones |
| DataSummary.ValueCounts | API/services/data_preprocess/data_summary.py:28 | one entry per distinct non-missing value, each with its number of occurrences |
| DataSummary.MostFrequent | API/services/data_preprocess/data_summary.py:39 | an entry no other entry outnumbers, the first such |
| DataSummary.CategoricalGraph | API/services/data_preprocess/data_summary.py:21-39 | "count" exactly when all values are distinct; "pie" exactly when some repeat and there are fewer than 3 distinct; otherwise "bar" |
| DataSummary.CategoricalReportsMissing | API/services/data_preprocess/data_summary.py:24-38 | every answer reports the number of missing values; "count" reports the length |
| DataSummary.CountsCompactReports | API/services/data_preprocess/data_summary.py:28-39 | pie and bar list every non-missing value once, with its count as text and the valid count |
| DataSummary.CountsTableReports | API/services/data_preprocess/data_summary.py:28-30 | the keys of `value_counts()` are the non-missing values, each once, and frequency i is the count of key i as text |
| DataSummary.CategoricalCountsShape | API/services/data_preprocess/data_summary.py:27-39 | every answer other than "count" is the counts data |
| DataSummary.BarNamesMostFrequent | API/services/data_preprocess/data_summary.py:39 | "bar" names a value that no other value outnumbers |
| DataSummary.CategoricalNeverRaises | API/services/data_preprocess/data_summary.py:33-39 | `max` on the counts never sees an empty dictionary |
| DataSummary.ColumnKind | API/services/data_preprocess/data_summary.py:83-98 | numerical exactly when the dtype is float64, float32, int64 or int32, the column is not all missing, and its unique values are not 0/1 |
| DataSummary.EmptyColumnIsCategorical | API/services/data_preprocess/data_summary.py:86-87 | an empty column is all missing, so it is categorical whatever its dtype |
| DataSummary.BinaryColumnIsCategorical | API/services/data_preprocess/data_summary.py:88-89 | a 1/0 column is categorical whatever its dtype |
| DataSummary.ColumnStatsOf | API/services/data_preprocess/data_summary.py:85-115 | the entry has the column's name and kind. The graph type is "" exactly when the data is {}; categorical columns give count, pie or bar; numerical ones give a histogram exactly when it can be computed (the graph data itself is stated by ColumnStatsGraph) |
| DataSummary.ColumnStatsGraph | API/services/data_preprocess/data_summary.py:21-53 | a numerical entry with a histogram carries it with the valid and missing counts; a categorical entry carries `_categorical`'s answer, "count" exactly when every value is distinct and "pie" exactly when fewer than three values are distinct |
| DataSummary.DataSummary.ExtractGraph | API/services/data_preprocess/data_summary.py:85-107 | one pass of the first loop: the column's kind, then the try block's graph data, or "" and {} where it raises; together they are ColumnStatsOf |
| DataSummary.DataSummary.Assemble | API/services/data_preprocess/data_summary.py:109-115 | the zip loop pairs entry i with column i's name, type, graph type and data |
| DataSummary.DataSummary.StatisticsInfo | API/services/data_preprocess/data_summary.py:79-118 | one entry per column, in column order, entry i being ColumnStatsOf of column i |
| Localfiles.CaseGet | API/services/file_search/localfiles.py:31-36 | a None path or one containing "../" is rejected before dispatch; otherwise only the handler named "case_" + case is reached, and an error means no handler has that name |
| Localfiles.NotContains | API/services/file_search/localfiles.py:32 | a substring that starts no suffix is not contained |
| Localfiles.GuardIsLiteral | API/services/file_search/localfiles.py:32 | the guard is a literal substring test: "/.." passes and "/../etc" is rejected |
| Localfiles.UnknownCase | API/services/file_search/localfiles.py:34-35 | an unknown case is an AttributeError for "case_" + case |
| Localfiles.Files | API/services/file_search/localfiles.py:39-44 | a name is listed exactly when it is a visible file |
| Localfiles.Dirs | API/services/file_search/localfiles.py:45-50 | a name is listed exactly when it is a visible non-file |
| Localfiles.ListingPartitions | API/services/file_search/localfiles.py:38-51 | every visible entry lands in the list its kind says; a dot-prefixed name lands in neither; the two lists hold at most one name per entry |
| Localfiles.JsonSamplesShape | API/services/file_search/localfiles.py:66-73 | at most `limit` samples, the parsed first lines in order; reading stops only at the limit, the end of the file or an empty read |
| Localfiles.CsvSamplesShape | API/services/file_search/localfiles.py:75-83 | at most `limit` rows, the first ones in order, stopping only at the limit, the end or an empty row |
| Localfiles.Localfiles.constructor | API/services/file_search/localfiles.py:24-25 | `sample_num` is 5 |
| Localfiles.Localfiles.CaseGetSample | API/services/file_search/localfiles.py:60-84 | NotSupportedFileTypeError unless the path ends in .json or .csv; otherwise the JSON or CSV samples under a budget of `sample_num` |

## Left out

- **Reading files.** Reading CSV and JSON files, `os.listdir`/`isfile`, and writing the preprocessed file are inputs or left out. The table, the directory entries and the file lines are parameters. `_load_data` and `_save_prep_data` are not part of this model beyond the output file name and path.
- **joblib pickling.** The store is a map from joined path to artifact. Loading a missing path is None, standing for the exception.
- **`__import__`/`getattr` resolution** in `_get_base_object`. It is an oracle returning default parameters or failure.
- **The scikit-learn and LightGBM algorithms.** `fit_transform` and `transform` are oracles. Only the shape of their output and the class vocabulary are modelled. The `astype(float)` attempt before fitting is folded into the fit oracle.
- **Model training and scoring.** `_train_sklearn_model`, `_train_lightgbm_model`, `model_task_result`, and `score`/`predict`/`inverse_transform` in `get_test_result` are floating-point numerics.
- **Database lookups.** `_check_request_pk` (both copies) and `_check_model_parameters` (`hasattr` on the estimator, `check_estimators_dtypes`) are database and reflection lookups. Their outcome enters `CheckPostMode` as a `DbLookup` value, and the rest of `check_request_body_models_post` is not modelled.
- **The histogram of `_numerical`.** It is an oracle returning the summary, or None where it raises. The 3-decimal rounding, `describe()` quantiles and the 4-decimal rounding in `_convert_to_return_shape` are not modelled.
- **`columns_info` and `sample_info`.** These are `str()` of pandas output, a formatting concern.
- **`case_get_info` and `case_delete`.** These are timestamps, file sizes and filesystem deletion; `case_get` only dispatches to them. `convert_date` is left out as well.
- **Python set and NaN identity.** Missing values (NaN/None) are one `Missing` cell, counted once by `set()`.
- **`value_counts()` order.** It is taken as first-occurrence order rather than descending count.
- **The most frequent value.** It is kept as a cell rather than its `str()`.
- DataSummary.CategoricalGraph: the "bar" branch's exception path, caught in `statistics_info`, cannot happen in the model (CategoricalNeverRaises), so ExtractGraph never produces "" for a categorical column.
- **The order of `"".join(set difference)`.** In `_mandatory_key_exists_preprocessed_post` the model fixes it to the order of the mandatory list; Python's set iteration order is unspecified.
- **Dictionary key order of the stored `train_param`.** It is a `map`; the order of the JSON text is not modelled.
- **`str.isdigit`.** It is modelled on ASCII digits only; Python also accepts other Unicode digits.
- **`str.lower`.** `ToLower` lowers only the ASCII letters A-Z; Python also lowers other Unicode letters (accented and non-Latin capitals).
- **`str.strip`.** `IsSpace` counts only the ASCII white-space characters (space, tab, line feed, carriage return, vertical tab, form feed and 0x1C-0x1F); Python also strips other Unicode white space such as U+0085, U+00A0 and U+2000-U+200A.
- **`int()` leniency.** It also accepts surrounding blanks and `_` separators; the model's `-` branch accepts only `-` followed by ASCII digits.
- **Float parsing.** Only a single dot between ASCII digits is parsed, as an exact decimal.
- TrainHelper.TrainCoerce: `literal_eval` of a dict is an oracle and the value it returns is not constrained.
- **The `json.dumps`/`json.loads` round trip of a CSV row.** It is taken as the identity on its (header, value) pairs.
- PreprocessTester.ConvertToReturnShape: the numpy element-type tests on `after_[1]` are read from the output's kind (dense width 1, rank-1 scalars, sparse, dense width other than 1). The 4-decimal rounding of long floats is not modelled.
- PreprocessTester.IndexErrorMessage: the texts are those numpy and scipy print for `after_[1]` on a short output; the exact wording belongs to the library versions installed, which are not pinned in the repository, and other versions word the sparse message differently.
- **Logging, `where_exception` and the HTTP error wrappers.** These are left out.

## Findings

| source | as written | input that shows it | evidently intended | confidence | as-written member | corrected member |
|---|---|---|---|---|---|---|
| API/services/model_train/train_helper.py:456-461 | the value is lower-cased and then compared with "None", so that branch can never match | the stored value "None" comes back as the string "none", not None | "none" in any case is turned into None, as "true"/"false" are turned into booleans | high, not executed | TrainHelper.NormalizeParamAsWritten (NoneBranchNeverFires) | TrainHelper.NormalizeParam (NormalizeParamFixesNone, used by CheckParams) |
