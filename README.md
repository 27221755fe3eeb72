# Kubernetes failure predictor: detection-to-remediation path

This project models the path from metrics to cluster changes in a Kubernetes
failure predictor written in Python. It has four parts:

- **Feature computation** (`load_and_preprocess_data`, identical in the three
  predictors):
  - column names are normalised;
  - the metrics table is indexed by its timestamp;
  - a five-row rolling average is appended for each numeric column;
  - two-row threshold flags are computed for CPU, memory and restarts;
  - `target` is the OR of the three flags.

  The table is a `Frame` class whose column list the methods change in place.
- **Advice handling**. `re.findall(r"\* (.+)")` and `re.findall(r"- (.+)")` are
  modelled character by character. The three variants of
  `parse_gemini_advice_to_json` are modelled:
  - the analysis server's `*`, then `-`, then whole-text fallback;
  - the `*`-only parser of the two other predictors.

  The error path of `get_remediation_advice` and the dashboard predictor's
  "No predefined solution" filter are modelled too.
- **The remediation engine** (`jsonextractor.py`):
  - the ordered, case-insensitive keyword table;
  - `solution_implementation`'s step loop and the actions it dispatches to;
  - the memory, image and scale patch bodies;
  - the ledger `failure_details`, which `periodic_alert` drains into an alert body.

  The engine is a `Remediator` class holding the ledger, the calls it issued and
  the messages it emitted. The cluster is an oracle `Api`: for each call number
  it may answer with a value, a 404 or any other error.
- **The row loops**:
  - the server's `run_analysis`;
  - the command-line predictor's `main`;
  - the dashboard predictor's `run_predictions`;
  - pod selection (`get_pod_name_for_deployment`).

Each imperative operation is a method. Each method is proved to have exactly
the effect that a specification function gives. The specification function is
an `Effect`: the ledger entries appended, the API calls issued, the messages
emitted, and the exception that escapes. The properties are proved as lemmas
about those functions.

The code is followed where the repository's own description of its behaviour
differs from it:

- **Rolling-window flags.** A 0.1 → 0.99 CPU spike with threshold 0.5 flags
  only the second row. `rolling(window=2)` yields NaN at row 0, and `fillna`
  turns that into `False` (`Features.TwoRowExample`).
- **Rows with no pod.** The server and the command-line predictor skip a failing
  row for which no pod is found before calling `solution_implementation`. No
  "No pod found" record is written (`Pipelines.IdleRowsDoNothing`). That record
  is only written when `solution_implementation` itself receives no pod
  (`Remediation.NoPodSkipsSolution`).
- **Failed advice request.** When the error text "❌ Error from Gemini: …"
  holds no "* x" or "- x" bullet, the server turns it into the row's single
  step and runs it like any other step
  (`Pipelines.ServerRunsWholeTextWithoutBullets`). When it holds no "* x"
  bullet, the command-line predictor finds no step in it and does nothing
  (`Pipelines.CommandLineIgnoresTextWithoutStars`). The dashboard predictor
  keeps the row (`Pipelines.FilterDecidesKept`).

## Model

| member | source | states |
|---|---|---|
| Text.Lower | src/jsonextractor.py:231 | `str.lower()`: the same length, every character lower-cased (ASCII letters), no upper-case letter left |
| Text.LStrip | src/server.py:56 | drops exactly the leading whitespace: the dropped part is all whitespace and the result starts with none |
| Text.RStrip | src/server.py:56 | drops exactly the trailing whitespace |
| Text.CollapseSpaces | src/server.py:56 | `re.sub(r'\s+', '_')` leaves no whitespace and never lengthens the name |
| Text.CollapseRun | src/server.py:56 | a whitespace run between a whitespace-free prefix and the rest becomes exactly one `_` |
| Text.NormalizeName | src/server.py:56 | a normalised column name holds no whitespace and no upper-case letter |
| Text.NormalizeIdempotent | src/server.py:56 | normalising a normalised name changes nothing |
| Text.NatString | src/jsonextractor.py:140 | `str(n)` is a non-empty string of decimal digits |
| Patches.MemoryPatches | src/jsonextractor.py:57-93 | the memory patch has one container per pod container, with the same names in the same order |
| Patches.BuildPatchContainers | src/jsonextractor.py:57-82 | the loop that rebinds `memory_request`/`memory_limit` builds exactly `MemoryPatches` |
| Patches.CarryKeepsGiven | src/jsonextractor.py:69-70 | a truthy caller-supplied value survives every rebinding |
| Patches.CarryKeepsFirst | src/jsonextractor.py:66-70 | without a caller value, the first container's non-empty value is kept for all later containers |
| Patches.Carry | src/jsonextractor.py:66-70 | defines the value after the `or` rebindings of the visited containers (no contract; stated by `CarryComesFrom`, `CarryKeepsGiven` and `CarryKeepsFirst`) |
| Patches.CarryComesFrom | src/jsonextractor.py:66-70 | after the `or` rebindings the value is the caller's truthy value or the current value of a visited container |
| Patches.SuppliedValuesOverride | src/jsonextractor.py:245 | with caller values ("512Mi"/"1Gi"), every container gets exactly those values |
| Patches.FirstContainerValuesApplyToAll | src/jsonextractor.py:60-82 | without caller values, every container gets the values resolved for the first container |
| Patches.MissingValuesDefault | src/jsonextractor.py:66-67 | a first container stating no memory values makes every container get "256Mi"/"512Mi" |
| Patches.SecretRefs | src/jsonextractor.py:124 | one `{"name": s}` per secret, in order |
| Patches.ImageFixPatch | src/jsonextractor.py:110-128 | one container, named as the deployment's first container, with `correct_image`; one secret entry per supplied secret, in order; none when the key is absent |
| Patches.ScaleBody | src/jsonextractor.py:137 | defines the scale body `{"spec": {"replicas": replicas}}` (no contract; stated by `Remediation.ScaleEffect`) |
| Keywords.FirstMatch | src/jsonextractor.py:228-233 | the index of the first table entry whose lower-cased keyword occurs in the lower-cased step; none when no entry matches |
| Keywords.Matches | src/jsonextractor.py:231 | defines `keyword.lower() in step.lower()` (no contract; stated by `CaseInsensitive` and `NotMatchedFor`) |
| Keywords.LookupAction | src/jsonextractor.py:228-233 | the keyword loop with `break` yields the action of the first matching entry, and none exactly when no keyword matches |
| Keywords.FirstMatchAt | src/jsonextractor.py:230-233 | the entry where the loop stops is the one `FirstMatch` finds |
| Keywords.FirstMatchWins | src/jsonextractor.py:152-169 | a step resolves to the earliest matching entry of `ACTION_KEYWORDS`, whatever later entries also match |
| Keywords.CaseInsensitive | src/jsonextractor.py:231 | steps that are equal up to case resolve to the same entry |
| Keywords.NotMatchedFor | src/jsonextractor.py:231 | a keyword holding a lower-case character that the lower-cased step lacks does not match |
| Keywords.RestartBeatsScaleUp | src/jsonextractor.py:152-169 | a step with both "restart" and "scale up" resolves to restarting the container |
| Ledger.AlertBody | src/jsonextractor.py:179-184 | the `body +=` loop yields the header followed by one block per record; the body grows by at least 92 characters per record, the fixed text of a block |
| Ledger.Block | src/jsonextractor.py:181-184 | a record's block is its failure, action and error-message texts ("No error message" when absent) plus 92 characters of fixed text |
| Ledger.BlockShape | src/jsonextractor.py:181-184 | a block opens with "Failure: " and closes with the 50-dash rule and a newline |
| Ledger.Report | src/jsonextractor.py:179-184 | the body starts with the report header and holds at least 92 characters per record |
| Ledger.AppendBlock | src/jsonextractor.py:181-184 | the four appends for one record add exactly that record's block, with "No error message" when the message is absent |
| Ledger.ReportNext | src/jsonextractor.py:180-184 | one more record adds its block at the end of the report |
| Ledger.BlocksAppend | src/jsonextractor.py:180-184 | the blocks of a concatenation are the concatenated blocks, so ledger order is kept |
| Ledger.ReportStartsWithFirstRecord | src/jsonextractor.py:179-184 | the report is the header, then the first record's block, then the rest |
| Ledger.LogExcerpt | src/jsonextractor.py:257 | the first 500 characters of the logs, followed by "..." exactly when there are more |
| Remediation.PatchFor | src/jsonextractor.py:54-93 | a pod JSON without `spec`/`containers` (or falsy) raises `ValueError("Invalid or missing pod JSON data.")`; otherwise one patch container per pod container |
| Remediation.PatchFromPodJson | src/jsonextractor.py:43-55 | the pod is read (one non-mutating call) exactly when the JSON is falsy and pod name and namespace are given; a 404 gives no patch; a JSON that stays malformed raises `ValueError` |
| Remediation.DiagnoseEffect | src/jsonextractor.py:95-104 | no body: the "Patch body is missing" message and no call; a body: exactly one patch of the deployment with that body, then the success message, or the failure message with the API error text |
| Remediation.ImageFixEffect | src/jsonextractor.py:106-133 | a missing `json_input` raises `TypeError`; otherwise the deployment is read first; a deployment without containers raises `IndexError`; the second call patches with `ImageFixPatch` of the first container name; an API error on the read or on the patch emits the image-patch failure message with its text and is not raised; a successful patch emits the success message |
| Remediation.ScaleEffect | src/jsonextractor.py:136-142 | exactly one scale call with `{"spec": {"replicas": n}}`, never raising; the success message names the deployment and `n`, a failure emits the API error text |
| Remediation.DeleteEffect | src/jsonextractor.py:145-150 | exactly one delete of the named pod, never raising; success emits the deleted-pod message, and any API error, an absent pod included, emits the delete-failure message with its text |
| Remediation.EntryRecord | src/jsonextractor.py:218-360 | the fixed `failure`/`action`/`error_message` texts of each action's record, the failed-fetch record carrying the error text, the no-pod record |
| Remediation.Records | src/jsonextractor.py:171 | the ledger as dictionaries, one per entry, in order |
| Remediation.MessageText | src/jsonextractor.py:97-363 | defines the text of every `emit_callback` message of the engine, word for word (no contract; the messages are compared as values) |
| Remediation.AdvisoryText | src/jsonextractor.py:315-355 | defines the fixed text each advisory action emits (no contract) |
| Remediation.StepEffect | src/jsonextractor.py:228-363 | defines one iteration of the step loop: an unmatched step emits "Executing general step", a matched step runs its action; its outcome is stated by `StepFacts` |
| Remediation.Solve | src/jsonextractor.py:213-363 | defines `solution_implementation`: the no-pod record without a truthy pod name, else the step loop over the steps, a string being one step; stated by `NoPodSkipsSolution` and `RecordsFollowMatchedActions` |
| Remediation.PatchStep | src/jsonextractor.py:235-251 | an exception from the patch generation escapes with no record and no mutating call; otherwise exactly one record for the action |
| Remediation.LogsEffect | src/jsonextractor.py:253-269 | reads the previous container's last 50 lines; on success the excerpt and a "Fetch logs" record, on an API error the error text and a "Fetch logs failed" record |
| Remediation.ActionEffect | src/jsonextractor.py:235-360 | an action that does not raise appends exactly one record describing it |
| Remediation.ActionEffectFacts | src/jsonextractor.py:235-360 | only the patch and image actions can raise, and then nothing is recorded; logs and the advisory actions make no mutating call; an advisory action only emits its message and appends its record |
| Remediation.StepFacts | src/jsonextractor.py:228-363 | a step no keyword matches only emits "Executing general step" (no record, no call); a matched step appends one record unless it raises |
| Remediation.AsList | src/jsonextractor.py:225-226 | a single string is a one-element step list |
| Remediation.StepFnObeys | src/jsonextractor.py:228-363 | every step of the loop has the outcome `StepFacts` states |
| Remediation.RecordsFollowMatchedActions | src/jsonextractor.py:228-360 | the ledger gains one entry per matched step, in step order, each written for that step's action; after an exception, only the entries of the steps before it |
| Remediation.RunSteps | src/jsonextractor.py:228-363 | defines a `for` loop over items that stops at the first exception, for any loop body; the step loop here and the row loops at src/server.py:167-229 and src/predictgemini.py:121-153 use it (no contract; stated by `RaiseStopsRun`, `RecordsFollowMatchedActions`, `RunStepLoop`, `RunAnalysis` and `PredictMain`) |
| Remediation.Added | src/jsonextractor.py:228-363 | defines what the `k`-th item adds to the loop: nothing once an earlier item raised, else its own effect (no contract; stated by `RaiseStopsRun`) |
| Remediation.Ran | src/jsonextractor.py:228-363 | defines the `k`-th item's effect, run after the calls of the items before it (no contract; stated through `StepFnObeys`) |
| Remediation.MatchedActions | src/jsonextractor.py:228-233 | defines the actions the steps resolve to, in step order, skipping unmatched steps (no contract; the reference of `RecordsFollowMatchedActions` and `TwoStepsMatched`) |
| Remediation.RaiseStopsRun | src/jsonextractor.py:228-363 | an exception ends the loop: later steps add nothing |
| Remediation.ReadOnlyStepsMutateNothing | src/jsonextractor.py:253-363 | steps that only fetch logs, advise or match nothing never change the cluster and never raise |
| Remediation.NoPodSkipsSolution | src/jsonextractor.py:216-223 | without a pod name (`None` or ""), exactly one "No pod found" record and message, and no call |
| Remediation.FixedLimitsNeedPodJson | src/jsonextractor.py:245 | the CPU and increase-memory actions with a falsy `pod_json` raise `ValueError` before any call, with no record |
| Remediation.MemoryStepPatchesFetchedPod | src/jsonextractor.py:235-237 | with a falsy `pod_json`, the memory action reads the pod and then patches the deployment with that pod's containers |
| Remediation.ScaleStepAsksForThree | src/jsonextractor.py:279-285 | the scale action always asks for 3 replicas and appends its record |
| Remediation.Remediator.constructor | src/jsonextractor.py:171 | an engine with an empty ledger, no call and no message, over `ACTION_KEYWORDS` |
| Remediation.Remediator.Emit | src/jsonextractor.py:217 | `emit_callback(text)` adds one message and changes nothing else |
| Remediation.Remediator.Append | src/jsonextractor.py:218 | `failure_details.append` adds one entry and changes nothing else |
| Remediation.Remediator.ReadNamespacedPod | src/jsonextractor.py:46 | one pod read, answered by the oracle at the current call number |
| Remediation.Remediator.ReadNamespacedDeployment | src/jsonextractor.py:113 | one deployment read, answered by the oracle |
| Remediation.Remediator.ReadNamespacedPodLog | src/jsonextractor.py:255 | one log read, answered by the oracle |
| Remediation.Remediator.Write | src/jsonextractor.py:101 | one patch, scale or delete call, answered by the oracle |
| Remediation.Remediator.GeneratePatchFromPodJson | src/jsonextractor.py:43-93 | has exactly the calls and result of `PatchFromPodJson` |
| Remediation.Remediator.DiagnoseAndFixPod | src/jsonextractor.py:95-104 | has exactly the effect of `DiagnoseEffect` |
| Remediation.Remediator.FixImagePullError | src/jsonextractor.py:106-133 | has exactly the effect and the exception of `ImageFixEffect` |
| Remediation.Remediator.ScaleDeployment | src/jsonextractor.py:136-142 | has exactly the effect of `ScaleEffect` |
| Remediation.Remediator.DeletePod | src/jsonextractor.py:145-150 | has exactly the effect of `DeleteEffect` |
| Remediation.Remediator.PatchAndRecord | src/jsonextractor.py:235-242 | generate, apply, record: exactly `PatchStep`, keeping the ledger invariant |
| Remediation.Remediator.ExecuteStep | src/jsonextractor.py:228-363 | one iteration of the step loop adds exactly what the run specification adds for that step |
| Remediation.Remediator.Act | src/jsonextractor.py:235-360 | the `if`/`elif` chain has exactly the effect of `ActionEffect` |
| Remediation.Remediator.PatchAct | src/jsonextractor.py:235-312 | the four patch branches have exactly the effect of `ActionEffect` |
| Remediation.Remediator.OtherAct | src/jsonextractor.py:253-360 | the logs, restart, scale, image and advisory branches have exactly the effect of `ActionEffect` |
| Remediation.Remediator.FetchLogs | src/jsonextractor.py:253-269 | has exactly the effect of `LogsEffect` |
| Remediation.Remediator.IncreaseMemory | src/jsonextractor.py:289-295 | has exactly the effect of the increase-memory `PatchStep` |
| Remediation.Remediator.SolutionImplementation | src/jsonextractor.py:213-363 | changes the ledger, calls and messages by exactly `Solve`, and raises what `Solve` raises |
| Remediation.Remediator.RunStepLoop | src/jsonextractor.py:228-363 | the step loop has exactly the effect of the run specification and stops at the first exception |
| Remediation.Remediator.RunStep | src/jsonextractor.py:228-363 | after step `i` the state is the start state followed by the run of the first `i + 1` steps |
| Remediation.Remediator.PeriodicAlert | src/jsonextractor.py:173-208 | a non-empty ledger is drained and emptied whether or not the e-mail goes out; the alert body (`Report` of its records) is kept only when it is delivered, so the records of a failed send are lost; an empty ledger is left alone |
| Advice.LineEnd | src/server.py:114 | `.+` stops at the next newline or at the end of the text |
| Advice.FindAll | src/server.py:114 | each capture is non-empty, holds no newline, and is at least two characters shorter than the text |
| Advice.CapturesAreBulletLines | src/server.py:114 | every capture is the rest of a line at a position of the text where the bullet, a space and one more character of that line occur |
| Advice.FindAllEmpty | src/server.py:115-118 | no capture exactly when no bullet followed by a space and text occurs |
| Advice.FirstCapture | src/server.py:114 | the first capture is the rest of the line after the first bullet |
| Advice.CaptureLine | src/server.py:114 | a bullet line yields its text as one capture, and matching resumes at the newline after it |
| Advice.SkipNewline | src/server.py:114 | a newline starts no match |
| Advice.ServerSteps | src/server.py:114-118 | never empty; the `*` captures when there are any; else the `-` captures when there are any; the whole text exactly when neither bullet occurs |
| Advice.NoBulletVariants | src/predictgemini.py:97 | without bullets the server runs the whole text while the `*`-only parser finds no step |
| Advice.StarBulletsAgree | src/predictgeministreamlit.py:93 | with a `*` bullet the server's and the `*`-only parser's steps agree |
| Advice.ParseServer | src/server.py:113-132 | the server's steps, "demo-deployment", "default", the pod name unchanged, `pod_json` `{}`, the fixed `json_input`, no "rollback" key |
| Advice.ParseStar | src/predictgemini.py:96-111 | the `*` captures, the same targets, and a "rollback" key (as in the dashboard predictor's copy) |
| Advice.DemoFixHasNoSecrets | src/server.py:126-131 | the parsed image fix asks for "nginx:latest" and no pull secret |
| Advice.ServerAdvice | src/server.py:95-106 | the advice text, or "❌ Error from Gemini: " followed by the error text; never an exception |
| Advice.DashboardAdvice | src/predictgeministreamlit.py:77-85 | `None` exactly for advice text holding "No predefined solution"; otherwise the same text as the other predictors |
| Advice.DashboardErrorIsTruthy | src/predictgeministreamlit.py:84-85 | an error text is truthy, so it is never filtered out |
| Advice.JsonExtractor | src/jsonextractor.py:18-23 | each entry is `None` exactly when its key is absent or holds JSON `null`, and otherwise the stored value |
| Advice.ExtractorReadsBack | src/jsonextractor.py:18-23 | the extractor returns what was stored under the two keys, a stored `null` reading back as `None` |
| Advice.ExtractorIgnoresOtherKeys | src/jsonextractor.py:18-23 | other keys do not change the result |
| Features.Find | src/server.py:63 | the first column of that name, none exactly when the name is absent |
| Features.Renamed | src/server.py:56 | every column renamed by `NormalizeName`, with its cells and type kept |
| Features.RenamedIsStable | src/server.py:56 | renaming a renamed table changes nothing |
| Features.Without | src/server.py:58 | setting the index removes exactly that column and keeps the others in order |
| Features.Present | src/server.py:64 | the present values of a window: no more than the window, taken from it, empty exactly when all are missing |
| Features.RollingMean | src/server.py:64 | one average per row; the values are stated by `RollingMeanFirstRow`, `RollingMeanMissing` and `RollingMeanBounds` |
| Features.RollingMeanFirstRow | src/server.py:64 | row 0's average is row 0's value |
| Features.RollingMeanMissing | src/server.py:64 | an average is missing exactly when its whole five-row window is missing |
| Features.SumBounds | src/server.py:64 | a sum of values within bounds lies within the bounds times the count |
| Features.RollingMeanBounds | src/server.py:64 | each average lies between bounds of the present values of its window |
| Features.Flags | src/server.py:74-76 | one flag per row; the rule is stated by `FlagRule` and `NaNThresholdFlagsNothing` |
| Features.FlagRule | src/server.py:74-76 | false at row 0; at a later row, true exactly when both rows of the pair are present and one of them exceeds the threshold |
| Features.Exceeds | src/server.py:74-76 | defines `x > threshold`, false for a NaN threshold (no contract; stated by `NaNThresholdFlagsNothing`) |
| Features.PairApply | src/server.py:74-76 | defines the window-2 `rolling(...).apply(lambda x: np.any(x > t))`: NaN at row 0 and when a value of the pair is NaN (no contract; stated by `FlagRule`) |
| Features.NaNThresholdFlagsNothing | src/server.py:74-76 | a NaN threshold flags no row |
| Features.TwoRowExample | src/server.py:74 | readings 0.1 then 0.99 against 0.5 flag only the second row |
| Features.BoolCells | src/server.py:74-76 | a flag column holds 1.0 or 0.0 per row |
| Features.TargetCells | src/server.py:78 | one `target` value per row; the values are stated by `TargetOfFlags` |
| Features.TargetOfFlags | src/server.py:78 | on flag columns, `target` is 1 exactly when one of the three flags is set |
| Features.SetColumn | src/server.py:74 | after `df[name] = …` the column exists; the read-back is stated by `SetThenFind` |
| Features.SetThenFind | src/server.py:74-78 | reading back the column just set gives its cells; other columns read as before |
| Features.Averaged | src/server.py:61-64 | the loop over the starting columns only ever adds, and adds at most one column per visited column; the added columns are stated by `AveragedAdds`, `AveragedKeepsColumns` and `AveragedOnlyAdds` |
| Features.AveragedKeepsColumns | src/server.py:63 | existing columns, `_avg` ones included, are never overwritten |
| Features.AveragedOnlyAdds | src/server.py:61-64 | every added column is the rolling mean of a numeric starting column whose `_avg` column was absent |
| Features.AveragedAdds | src/server.py:61-64 | with distinct names, each numeric column without an `_avg` column gains one holding its rolling mean |
| Features.Metric | src/server.py:67-69 | a missing metric column raises `KeyError`, a non-numeric one `TypeError`; otherwise its cells |
| Features.Metrics | src/server.py:67-69 | the three reads in order; the first failure escapes, naming its column |
| Features.Cells | src/server.py:78 | the cells of the named column |
| Features.Flagged | src/server.py:67-78 | fails exactly when a metric read fails, with that error |
| Features.Indexed | src/server.py:56-58 | fails exactly when no column normalises to "timestamp" |
| Features.NoTimestampRejected | src/server.py:57 | the table is rejected with `KeyError("timestamp")` exactly when no column normalises to "timestamp" |
| Features.TargetIsAnyFlag | src/server.py:74-78 | on a readable table, `target` has one value per row, and it is 1 exactly where the CPU, memory or restart flag is set |
| Features.WithFlags | src/server.py:72-76 | defines the three flag columns and `target` computed from them as read back (no contract; stated by `TargetIsAnyFlag`) |
| Features.Preprocess | src/server.py:53-80 | defines `load_and_preprocess_data` on the table read: renaming, timestamp index, averages, flags and target (no contract; stated by `NoTimestampRejected` and `TargetIsAnyFlag`) |
| Features.Frame.constructor | src/server.py:55 | a frame holding the table as read |
| Features.Frame.NormalizeColumnNames | src/server.py:56 | the columns are renamed and nothing else changes |
| Features.Frame.SetTimestampIndex | src/server.py:57-58 | succeeds exactly when a "timestamp" column exists, and removes it; otherwise the frame is unchanged |
| Features.Frame.AddRollingAverages | src/server.py:61-64 | the loop over the starting numeric columns leaves exactly `Averaged` |
| Features.Frame.AssignColumn | src/server.py:74 | `df[name] = cells` leaves exactly `SetColumn`, keeping every column one cell per row |
| Features.Frame.AddFailureFlags | src/server.py:67-78 | fails exactly when `Flagged` fails, with the same error; otherwise leaves exactly `Flagged` |
| Features.Frame.AddFlagColumns | src/server.py:74-78 | the three flag assignments and `target` leave exactly `WithFlags` |
| Features.Frame.LoadAndPreprocess | src/server.py:53-80 | fails exactly when `Preprocess` fails, with the same error; otherwise leaves exactly `Preprocess` |
| Pipelines.FirstRunning | src/server.py:45-47 | the first pod whose phase is "Running", none when no pod runs |
| Pipelines.SelectPod | src/server.py:41-51 | the first running pod, else the first pod, else none; none on an API error (same rule at src/predictgemini.py:24-34 and src/predictgeministreamlit.py:22-32) |
| Pipelines.IdleRowsDoNothing | src/server.py:174-210 | rows not predicted to fail, or with no pod found, add nothing: no record (not even "No pod found"), no call, no message |
| Pipelines.Acts | src/server.py:174-210 | defines when a row reaches `solution_implementation`: predicted to fail and a pod found (no contract; stated by `IdleRowsDoNothing`) |
| Pipelines.RowEffect | src/server.py:174-224 | defines one row's effect: nothing unless it is predicted to fail and a pod is found, else `solution_implementation` on the parsed advice (no contract; stated by `IdleRowsDoNothing`, `ServerRunsWholeTextWithoutBullets` and `CommandLineIgnoresTextWithoutStars`) |
| Pipelines.ServerRunsWholeTextWithoutBullets | src/server.py:189-224 | advice without bullets, an error text included, is run as one step |
| Pipelines.CommandLineIgnoresTextWithoutStars | src/predictgemini.py:134-153 | advice without `*` bullets makes the command-line predictor do nothing for the row |
| Pipelines.ReachedAfterRaise | src/server.py:233-234 | an exception from row `i` ends the whole analysis: exactly the rows up to `i` were run |
| Pipelines.Reached | src/server.py:167-234 | the number of rows the loop reaches before the outer `except` stops it, at most the number of rows (stated by `ReachedAfterRaise` and `ReachedAll`) |
| Pipelines.ShownStepsArePassed | src/server.py:193-217 | each step list sent to the dashboard belongs to a failing row and equals the steps handed to `solution_implementation` |
| Pipelines.Shown | src/server.py:189-203 | defines the step lists sent to the dashboard, one per row predicted to fail, tagged with its sample number (no contract; stated by `ShownStepsArePassed`) |
| Pipelines.ActOnRow | src/server.py:174-224 | one row adds exactly what the run specification adds for it |
| Pipelines.RunRow | src/server.py:167-229 | after row `i` the state is the start state followed by the run of the first `i + 1` rows |
| Pipelines.RunAnalysis | src/server.py:147-234 | changes the engine by exactly the run over the rows, stops at the first exception, and shows the step lists of the failing rows reached |
| Pipelines.PredictMain | src/predictgemini.py:113-153 | changes the engine by exactly the run over the rows with the `*`-only parser; an exception ends the run |
| Pipelines.Label | src/predictgeministreamlit.py:117 | "❌ Failure" exactly when the prediction is 1 |
| Pipelines.KeptRows | src/predictgeministreamlit.py:125-139 | the kept rows, strictly increasing, every kept row included |
| Pipelines.PredictionsFollowKeptRows | src/predictgeministreamlit.py:114-141 | `results` holds exactly one entry per kept row, in row order |
| Pipelines.Predictions | src/predictgeministreamlit.py:109-141 | at most one entry per row; the entries are stated by `PredictionsFollowKeptRows` |
| Pipelines.KeptWhateverThePrediction | src/predictgeministreamlit.py:116-125 | whether a row is kept does not depend on its prediction, which only decides the label |
| Pipelines.FilterDecidesKept | src/predictgeministreamlit.py:125-131 | advice naming no predefined solution drops the row; a failed advice request is kept whenever a pod is found |
| Pipelines.Kept | src/predictgeministreamlit.py:126-131 | defines when a row gets a result: truthy advice and a pod found (no contract; stated by `FilterDecidesKept`, `KeptWhateverThePrediction` and `KeptRows`) |
| Pipelines.RunPredictions | src/predictgeministreamlit.py:109-141 | builds exactly `Predictions` and takes no engine, so it changes nothing on the cluster |
| Pipelines.TwoStepAdviceParsed | src/server.py:113-118 | advice "* Restart the container\n* Scale up the deployment" gives those two lines as the steps, under both parsers (same regex at src/predictgemini.py:97) |
| Pipelines.TwoStepsMatched | src/jsonextractor.py:152-169 | the restart step resolves to restarting the container and the scale step to scaling the deployment, in step order |
| Pipelines.TwoStepAdviceActions | src/jsonextractor.py:228-233 | that two-bullet advice leads to a restart and then a scale-up |

## Left out

- Reading the CSV file, `pd.to_datetime` (a malformed timestamp raising), mean
  imputation and `model.predict`. The table and the predictions are inputs.
- The threshold derivation mean + 2·std. The thresholds are parameters, and a
  NaN threshold is `None`.
- The Gemini HTTP request and its prompt. The reply is a row input: a text or
  an error text.
- The pod listing. It is a row input, not one of the engine's recorded calls.
- `str(ApiException)` is modelled as the exception's reason text.
- Rounding the metrics to three places. The metrics are carried as given.
- Console printing, Socket.IO `log`/`stats`/`metrics` emits and `time.sleep`.
  `success_rate` is also left out. The engine's `emit_callback` messages and the
  server's step lists are modelled.
- Sending the alert e-mail over SMTP, and the 30-second `threading.Timer`
  re-arm with its race against appends. `PeriodicAlert` is one sequential
  drain-then-clear tick. Whether the send succeeds is its `delivered`
  parameter, and a delivered body is stored instead of mailed.
- `get_first_pod_name_from_deployment` (src/jsonextractor.py:25-40) is never
  called on the modelled path.
- Case folding and whitespace are ASCII only. Non-ASCII letters and Unicode
  spaces are not folded or collapsed.
- Duplicate column labels. Column reads use the first column of a name. A
  non-numeric metric column is modelled as raising `TypeError`.
- `get_pod_name_for_deployment` is modelled on the listing's names and phases.
  A pod without a status is not modelled.
- Merge-patch semantics on the cluster. The oracle only answers calls.
- JSON `null` inside a pod or an image-fix input. The model has no such value,
  so four exceptions it cannot show are left out. Each one escapes
  `solution_implementation`, and in the analysis server it ends the whole run:
  - a `spec` that is `None` raises `TypeError` on the `'containers' in` test
    (src/jsonextractor.py:54);
  - a `containers` that is `None` raises `TypeError` when the loop iterates it
    (src/jsonextractor.py:59);
  - a container whose `resources` is `None` raises `AttributeError`
    (src/jsonextractor.py:62);
  - an `image_pull_secrets` that is `None` raises `TypeError` in the secret list
    (src/jsonextractor.py:124).
