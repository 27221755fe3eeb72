/**
 * The per-row loops of the three predictors: pod selection, which rows ask
 * for advice and reach `solution_implementation`, what is skipped, and the
 * results the dashboard predictor accumulates.
 *
 * A row bundles what the loop learns about one sample: the classifier's
 * prediction, the metrics sent for advice, the reply of the advice request
 * and the reply of the pod listing. The predictions, the advice service and
 * the pod listing are inputs; the listing is not recorded among the calls.
 */
module Pipelines {
  import opened Wrappers
  import opened Text
  import opened Kube
  import opened Keywords
  import opened Remediation
  import opened Advice

  // ---------------------------------------------------------------------
  // get_pod_name_for_deployment

  /** The position of the first pod whose phase is "Running". */
  function FirstRunning(pods: seq<Pod>): (r: Option<nat>)
    ensures r.Some? ==> r.value < |pods| && pods[r.value].phase == "Running"
                        && forall j :: 0 <= j < r.value ==> pods[j].phase != "Running"
    ensures r.None? ==> forall j :: 0 <= j < |pods| ==> pods[j].phase != "Running"
    decreases |pods|
  {
    if pods == [] then None
    else if pods[0].phase == "Running" then Some(0)
    else match FirstRunning(pods[1..])
      case None => None
      case Some(i) => Some(i + 1)
  }

  /**
   * The pod the predictors act on: the first running pod of the listing, else
   * the first pod, else none; a failed listing gives none.
   */
  function SelectPod(reply: Reply<seq<Pod>>): (r: Option<string>)
    ensures r.None? <==> reply.ApiError? || reply.value == []
    ensures reply.Ok? && (exists i :: 0 <= i < |reply.value| && reply.value[i].phase == "Running") ==>
      exists i :: 0 <= i < |reply.value| && reply.value[i].phase == "Running" && r == Some(reply.value[i].name)
                  && forall j :: 0 <= j < i ==> reply.value[j].phase != "Running"
    ensures reply.Ok? && reply.value != [] && (forall i :: 0 <= i < |reply.value| ==> reply.value[i].phase != "Running") ==>
      r == Some(reply.value[0].name)
  {
    match reply
    case ApiError(_, _) => None
    case Ok(pods) =>
      match FirstRunning(pods)
      case Some(i) => Some(pods[i].name)
      case None => if pods == [] then None else Some(pods[0].name)
  }

  // ---------------------------------------------------------------------
  // The rows

  /** The rounded metrics of a row, as sent for advice. */
  datatype Metrics = Metrics(cpuUsage: real, memoryUsage: real, containerRestartsAvg: real)

  datatype Row = Row(prediction: int, metrics: Metrics, advice: AdviceReply, pods: Reply<seq<Pod>>)

  /** The analysis server, or the command-line predictor. */
  datatype Variant = AnalysisServer | CommandLine

  /** The variant's `parse_gemini_advice_to_json`. */
  function Parse(v: Variant, advice: string, podName: Option<string>): (s: Solution)
    ensures v.AnalysisServer? ==> s == ParseServer(advice, podName)
    ensures v.CommandLine? ==> s == ParseStar(advice, podName)
  {
    if v.AnalysisServer? then ParseServer(advice, podName) else ParseStar(advice, podName)
  }

  /** A row reaches `solution_implementation`: it is predicted to fail and a pod was found. */
  predicate Acts(row: Row) {
    row.prediction == 1 && Truthy(SelectPod(row.pods))
  }

  /**
   * One iteration of the row loop of the server and of the command-line
   * predictor: a row predicted to fail asks for advice; without a pod it is
   * skipped; otherwise the parsed solution is handed to `solution_implementation`.
   */
  function RowEffect(api: Api, table: seq<(string, Action)>, v: Variant, m: nat, row: Row): Effect {
    if !Acts(row) then NoEffect
    else
      var s := Parse(v, ServerAdvice(row.advice), SelectPod(row.pods));
      Solve(api, m, table, StepList(s.steps), s.deployment, s.namespace, s.podName, s.podJson, Some(s.jsonInput))
  }

  function RowFn(api: Api, table: seq<(string, Action)>, v: Variant): (nat, Row) -> Effect {
    (m: nat, row: Row) => RowEffect(api, table, v, m, row)
  }

  /**
   * Rows that do not act change nothing, so a run in which no row acts writes
   * no ledger record and issues no call: in particular a row without a pod is
   * skipped before `solution_implementation`, whose "No pod found" record is
   * therefore never written by these loops.
   */
  lemma {:induction false} IdleRowsDoNothing(api: Api, table: seq<(string, Action)>, v: Variant, n: nat,
                                             rows: seq<Row>, k: nat)
    requires k <= |rows| && forall i :: 0 <= i < k ==> !Acts(rows[i])
    ensures RunSteps(RowFn(api, table, v), n, rows, k) == NoEffect
    decreases k
  {
    if k > 0 {
      IdleRowsDoNothing(api, table, v, n, rows, k - 1);
      assert !Acts(rows[k - 1]);
      assert Ran(RowFn(api, table, v), n, rows, k) == NoEffect;
    }
  }

  /**
   * The server always hands over at least one step: without bullets the whole
   * advice text (an error text included) is the one step.
   */
  lemma ServerRunsWholeTextWithoutBullets(api: Api, table: seq<(string, Action)>, m: nat, row: Row)
    requires Acts(row)
    requires !HasBullet(ServerAdvice(row.advice), '*') && !HasBullet(ServerAdvice(row.advice), '-')
    ensures RowEffect(api, table, AnalysisServer, m, row)
         == Solve(api, m, table, StepList([ServerAdvice(row.advice)]), DemoDeployment, DefaultNamespace,
                  SelectPod(row.pods), EmptyPodJson, Some(DemoFixInput))
  {
    NoBulletVariants(ServerAdvice(row.advice));
  }

  /**
   * The command-line predictor parses `*` bullets only: advice without them
   * gives an empty step list and the row does nothing at all.
   */
  lemma CommandLineIgnoresTextWithoutStars(api: Api, table: seq<(string, Action)>, m: nat, row: Row)
    requires !HasBullet(ServerAdvice(row.advice), '*')
    ensures RowEffect(api, table, CommandLine, m, row) == NoEffect
  {
    FindAllEmpty(ServerAdvice(row.advice), '*');
    if Acts(row) {
      var s := ParseStar(ServerAdvice(row.advice), SelectPod(row.pods));
      assert s.steps == [];
      assert RunSteps(StepFn(api, Context(table, s.deployment, s.namespace, s.podName.value, s.podJson,
                                           Some(s.jsonInput))), m, [], 0) == NoEffect;
    }
  }

  // ---------------------------------------------------------------------
  // run_analysis and main

  /** How many rows the loop ran: up to and including the first row that raised. */
  function Reached<T>(step: (nat, T) -> Effect, n: nat, steps: seq<T>, k: nat): (r: nat)
    requires k <= |steps|
    ensures r <= k
    decreases k
  {
    if k == 0 then 0
    else if RunSteps(step, n, steps, k - 1).raised.Some? then Reached(step, n, steps, k - 1)
    else k
  }

  /** Once row `i` has raised, the loop has reached row `i` and no further. */
  lemma {:induction false} ReachedAfterRaise<T>(step: (nat, T) -> Effect, n: nat, steps: seq<T>, i: nat, j: nat)
    requires i < j <= |steps|
    requires RunSteps(step, n, steps, i).raised.None? && RunSteps(step, n, steps, i + 1).raised.Some?
    ensures Reached(step, n, steps, j) == i + 1
    decreases j
  {
    if j > i + 1 {
      RaiseStopsRun(step, n, steps, i + 1, j - 1);
      ReachedAfterRaise(step, n, steps, i, j - 1);
    }
  }

  /** A run that has not raised has reached every row. */
  lemma ReachedAll<T>(step: (nat, T) -> Effect, n: nat, steps: seq<T>, k: nat)
    requires 0 < k <= |steps| && RunSteps(step, n, steps, k).raised.None?
    ensures Reached(step, n, steps, k) == k
  {
    assert RunSteps(step, n, steps, k - 1).raised.None?;
  }

  /**
   * The step lists the server sends to the dashboard for the first `k` rows:
   * one per row predicted to fail, with its sample number, whether or not a
   * pod is then found.
   */
  function Shown(rows: seq<Row>, k: nat): seq<(nat, seq<string>)>
    requires k <= |rows|
    decreases k
  {
    if k == 0 then []
    else
      Shown(rows, k - 1)
      + if rows[k - 1].prediction == 1 then [(k, ServerSteps(ServerAdvice(rows[k - 1].advice)))] else []
  }

  /** The steps shown for a row are the steps its solution hands to `solution_implementation`. */
  lemma ShownStepsArePassed(rows: seq<Row>, k: nat, j: nat)
    requires k <= |rows| && j < |Shown(rows, k)|
    ensures 1 <= Shown(rows, k)[j].0 <= k
    ensures var row := rows[Shown(rows, k)[j].0 - 1];
            row.prediction == 1
            && Shown(rows, k)[j].1 == Parse(AnalysisServer, ServerAdvice(row.advice), SelectPod(row.pods)).steps
    decreases k
  {
    if j < |Shown(rows, k - 1)| {
      ShownStepsArePassed(rows, k - 1, j);
      assert Shown(rows, k)[j] == Shown(rows, k - 1)[j];
    }
  }

  /** Row `i`: the advice request, the pod lookup and the remediation run. */
  method ActOnRow(r: Remediator, v: Variant, rows: seq<Row>, i: nat, ghost n: nat) returns (raised: Option<PyError>)
    requires r.Valid() && i < |rows| && RunSteps(RowFn(r.api, r.table, v), n, rows, i).raised.None?
    requires |r.calls| == n + |RunSteps(RowFn(r.api, r.table, v), n, rows, i).calls|
    modifies r
    ensures r.Valid()
    ensures var e := Added(RowFn(r.api, r.table, v), n, rows, i + 1);
            r.Extends(e) && raised == e.raised
  {
    ghost var m := |r.calls|;
    assert Added(RowFn(r.api, r.table, v), n, rows, i + 1) == RowEffect(r.api, r.table, v, m, rows[i]);
    var row := rows[i];
    if row.prediction != 1 {
      return None;
    }
    var adviceText := ServerAdvice(row.advice);
    var podName := SelectPod(row.pods);
    if !Truthy(podName) {
      return None;
    }
    var s := Parse(v, adviceText, podName);
    raised := r.SolutionImplementation(StepList(s.steps), s.deployment, s.namespace, s.podName, s.podJson,
                                       Some(s.jsonInput));
  }

  /** Row `i` of the loop, once rows `0..i` have run from call number `n` without raising. */
  method RunRow(r: Remediator, v: Variant, rows: seq<Row>, i: nat, ghost n: nat, ghost start: Snapshot)
    returns (raised: Option<PyError>)
    requires r.Valid() && i < |rows| && RunSteps(RowFn(r.api, r.table, v), n, rows, i).raised.None?
    requires r.State() == After(start, RunSteps(RowFn(r.api, r.table, v), n, rows, i)) && |start.calls| == n
    modifies r
    ensures r.Valid()
    ensures r.State() == After(start, RunSteps(RowFn(r.api, r.table, v), n, rows, i + 1))
    ensures raised == RunSteps(RowFn(r.api, r.table, v), n, rows, i + 1).raised
  {
    ghost var before := RunSteps(RowFn(r.api, r.table, v), n, rows, i);
    ghost var added := Added(RowFn(r.api, r.table, v), n, rows, i + 1);
    raised := ActOnRow(r, v, rows, i, n);
    AfterThen(start, before, added);
  }

  /**
   * `run_analysis`: the rows in order; the step lists go to the dashboard;
   * an exception from `solution_implementation` ends the whole run (the outer
   * `except` only logs it).
   */
  method RunAnalysis(r: Remediator, rows: seq<Row>) returns (shown: seq<(nat, seq<string>)>, raised: Option<PyError>)
    requires r.Valid()
    modifies r
    ensures r.Valid()
    ensures var e := RunSteps(RowFn(r.api, r.table, AnalysisServer), old(|r.calls|), rows, |rows|);
            r.Extends(e) && raised == e.raised
    ensures shown == Shown(rows, Reached(RowFn(r.api, r.table, AnalysisServer), old(|r.calls|), rows, |rows|))
  {
    ghost var n := |r.calls|;
    ghost var start := r.State();
    shown := [];
    for i := 0 to |rows|
      invariant r.Valid()
      invariant RunSteps(RowFn(r.api, r.table, AnalysisServer), n, rows, i).raised.None?
      invariant r.State() == After(start, RunSteps(RowFn(r.api, r.table, AnalysisServer), n, rows, i))
      invariant shown == Shown(rows, i)
    {
      if rows[i].prediction == 1 {
        shown := shown + [(i + 1, ServerSteps(ServerAdvice(rows[i].advice)))];
      }
      raised := RunRow(r, AnalysisServer, rows, i, n, start);
      if raised.Some? {
        RaiseStopsRun(RowFn(r.api, r.table, AnalysisServer), n, rows, i + 1, |rows|);
        ReachedAfterRaise(RowFn(r.api, r.table, AnalysisServer), n, rows, i, |rows|);
        return;
      }
    }
    if |rows| > 0 {
      ReachedAll(RowFn(r.api, r.table, AnalysisServer), n, rows, |rows|);
    }
    raised := None;
  }

  /** `main` of the command-line predictor: the same loop; an exception escapes it. */
  method PredictMain(r: Remediator, rows: seq<Row>) returns (raised: Option<PyError>)
    requires r.Valid()
    modifies r
    ensures r.Valid()
    ensures var e := RunSteps(RowFn(r.api, r.table, CommandLine), old(|r.calls|), rows, |rows|);
            r.Extends(e) && raised == e.raised
  {
    ghost var n := |r.calls|;
    ghost var start := r.State();
    for i := 0 to |rows|
      invariant r.Valid()
      invariant RunSteps(RowFn(r.api, r.table, CommandLine), n, rows, i).raised.None?
      invariant r.State() == After(start, RunSteps(RowFn(r.api, r.table, CommandLine), n, rows, i))
    {
      raised := RunRow(r, CommandLine, rows, i, n, start);
      if raised.Some? {
        RaiseStopsRun(RowFn(r.api, r.table, CommandLine), n, rows, i + 1, |rows|);
        return;
      }
    }
    raised := None;
  }

  // ---------------------------------------------------------------------
  // run_predictions of the dashboard predictor

  const FailureLabel: string := "❌ Failure"
  const NoFailureLabel: string := "✅ No Failure"

  /** The label of a prediction. */
  function Label(prediction: int): (r: string)
    ensures r == FailureLabel <==> prediction == 1
  {
    if prediction == 1 then FailureLabel else NoFailureLabel
  }

  /** One entry of `results`. */
  datatype Prediction = Prediction(result: string, metrics: Metrics, advice: Solution)

  /** The row yields an entry: its advice passed the filter and a pod was found. */
  predicate Kept(row: Row) {
    Truthy(DashboardAdvice(row.advice)) && Truthy(SelectPod(row.pods))
  }

  function EntryFor(row: Row): Prediction
    requires Kept(row)
  {
    Prediction(Label(row.prediction), row.metrics, ParseStar(DashboardAdvice(row.advice).value, SelectPod(row.pods)))
  }

  /** `results` after the first `k` rows. */
  function Predictions(rows: seq<Row>, k: nat): (r: seq<Prediction>)
    requires k <= |rows|
    ensures |r| <= k
    decreases k
  {
    if k == 0 then []
    else Predictions(rows, k - 1) + if Kept(rows[k - 1]) then [EntryFor(rows[k - 1])] else []
  }

  /** The rows that yield an entry, in row order. */
  function KeptRows(rows: seq<Row>, k: nat): (r: seq<nat>)
    requires k <= |rows|
    ensures forall j :: 0 <= j < |r| ==> r[j] < k && Kept(rows[r[j]])
    ensures forall j1, j2 :: 0 <= j1 < j2 < |r| ==> r[j1] < r[j2]
    ensures forall i :: 0 <= i < k && Kept(rows[i]) ==> i in r
    decreases k
  {
    if k == 0 then []
    else KeptRows(rows, k - 1) + if Kept(rows[k - 1]) then [k - 1] else []
  }

  /**
   * `results` holds exactly the entries of the kept rows, in row order; the
   * prediction only decides the label.
   */
  lemma {:induction false} PredictionsFollowKeptRows(rows: seq<Row>, k: nat)
    requires k <= |rows|
    ensures |Predictions(rows, k)| == |KeptRows(rows, k)|
    ensures forall j :: 0 <= j < |KeptRows(rows, k)| ==>
      Predictions(rows, k)[j] == EntryFor(rows[KeptRows(rows, k)[j]])
    decreases k
  {
    if k > 0 {
      PredictionsFollowKeptRows(rows, k - 1);
    }
  }

  /** Every row asks for advice: a row predicted not to fail still yields an entry when kept. */
  lemma KeptWhateverThePrediction(row: Row, p: int)
    ensures Kept(row.(prediction := p)) == Kept(row)
    ensures Kept(row) ==> EntryFor(row.(prediction := p)).result == Label(p)
  {
  }

  /** Advice naming no predefined solution is dropped; a failed request is kept when a pod is found. */
  lemma FilterDecidesKept(row: Row)
    ensures row.advice.AdviceText? && Contains(row.advice.text, NoSolutionMarker) ==> !Kept(row)
    ensures row.advice.AdviceError? ==> (Kept(row) <==> Truthy(SelectPod(row.pods)))
  {
    if row.advice.AdviceError? {
      DashboardErrorIsTruthy(row.advice.error);
    }
  }

  /** `run_predictions`: no remediation is run, only `results` is built. */
  method RunPredictions(rows: seq<Row>) returns (results: seq<Prediction>)
    ensures results == Predictions(rows, |rows|)
  {
    results := [];
    for i := 0 to |rows|
      invariant results == Predictions(rows, i)
    {
      var row := rows[i];
      var result := if row.prediction == 1 then FailureLabel else NoFailureLabel;
      var adviceText := DashboardAdvice(row.advice);
      if !Truthy(adviceText) {
        continue;
      }
      var podName := SelectPod(row.pods);
      if !Truthy(podName) {
        continue;
      }
      var solution := ParseStar(adviceText.value, podName);
      results := results + [Prediction(result, row.metrics, solution)];
    }
  }

  // ---------------------------------------------------------------------
  // Two bullets: restart, then scale

  const RestartStep: string := "Restart the container"
  const ScaleStep: string := "Scale up the deployment"

  /** "* Restart the container\n* Scale up the deployment". */
  const TwoStepAdvice: string := "* " + RestartStep + ("\n" + ("* " + ScaleStep))

  /** The `*` captures of the two-bullet advice are its two lines without their bullets. */
  lemma TwoStepAdviceSteps()
    ensures StarSteps(TwoStepAdvice) == [RestartStep, ScaleStep]
  {
    assert '\n' !in RestartStep && '\n' !in ScaleStep;
    var second := "* " + ScaleStep;
    CaptureLine(RestartStep, "\n" + second, '*');
    SkipNewline(second, '*');
    assert second + [] == second;
    CaptureLine(ScaleStep, [], '*');
  }

  lemma RestartStepLowered()
    ensures Lower(RestartStep) == "restart the container"
  {
  }

  lemma ScaleStepLowered()
    ensures Lower(ScaleStep) == "scale up the deployment"
  {
  }

  /** The first step matches none of the memory and logs keywords. */
  lemma RestartStepSkipsEarlierEntries()
    ensures !Matches(RestartStep, "high memory usage") && !Matches(RestartStep, "memory limit")
    ensures !Matches(RestartStep, "container logs")
  {
    RestartStepLowered();
    assert 'g' !in "restart the container" && 'm' !in "restart the container" && 'l' !in "restart the container";
    NotMatchedFor(RestartStep, "high memory usage", 2);
    NotMatchedFor(RestartStep, "memory limit", 0);
    NotMatchedFor(RestartStep, "container logs", 10);
  }

  lemma RestartStepMatchesRestart()
    ensures Matches(RestartStep, "restart")
  {
    RestartStepLowered();
    LowerOfLowerCase("restart");
    assert OccursAt("restart the container", "restart", 0);
  }

  /** The second step matches neither memory keyword. */
  lemma ScaleStepSkipsMemoryEntries()
    ensures !Matches(ScaleStep, "high memory usage") && !Matches(ScaleStep, "memory limit")
  {
    ScaleStepLowered();
    assert 'g' !in "scale up the deployment" && 'i' !in "scale up the deployment";
    NotMatchedFor(ScaleStep, "high memory usage", 2);
    NotMatchedFor(ScaleStep, "memory limit", 8);
  }

  /** The second step matches neither the logs nor the restart keyword. */
  lemma ScaleStepSkipsLogsAndRestart()
    ensures !Matches(ScaleStep, "container logs") && !Matches(ScaleStep, "restart")
  {
    ScaleStepLowered();
    assert 'g' !in "scale up the deployment" && 'r' !in "scale up the deployment";
    NotMatchedFor(ScaleStep, "container logs", 5);
    NotMatchedFor(ScaleStep, "restart", 0);
  }

  lemma ScaleStepMatchesScaleUp()
    ensures Matches(ScaleStep, "scale up")
  {
    ScaleStepLowered();
    LowerOfLowerCase("scale up");
    assert OccursAt("scale up the deployment", "scale up", 0);
  }

  lemma RestartStepAction()
    ensures ActionFor(RestartStep) == Some(RestartContainer)
  {
    RestartStepSkipsEarlierEntries();
    RestartStepMatchesRestart();
    assert ActionKeywords[0].0 == "high memory usage" && ActionKeywords[1].0 == "memory limit";
    assert ActionKeywords[2].0 == "container logs" && ActionKeywords[3] == ("restart", RestartContainer);
    FirstMatchWins(RestartStep, 3);
  }

  lemma ScaleStepAction()
    ensures ActionFor(ScaleStep) == Some(ScaleDeployment)
  {
    ScaleStepSkipsMemoryEntries();
    ScaleStepSkipsLogsAndRestart();
    ScaleStepMatchesScaleUp();
    assert ActionKeywords[0].0 == "high memory usage" && ActionKeywords[1].0 == "memory limit";
    assert ActionKeywords[2].0 == "container logs" && ActionKeywords[3].0 == "restart";
    assert ActionKeywords[4] == ("scale up", ScaleDeployment);
    FirstMatchWins(ScaleStep, 4);
  }

  /** Both parser variants read the two bullet lines as the two steps. */
  lemma TwoStepAdviceParsed(v: Variant, podName: Option<string>)
    ensures Parse(v, TwoStepAdvice, podName).steps == [RestartStep, ScaleStep]
  {
    TwoStepAdviceSteps();
    assert TwoStepAdvice[2] == RestartStep[0];
    assert BulletAt(TwoStepAdvice, '*', 0);
    StarBulletsAgree(TwoStepAdvice);
  }

  /** The restart step resolves before the scale step, each to its own action. */
  lemma TwoStepsMatched()
    ensures MatchedActions(ActionKeywords, [RestartStep, ScaleStep], 2) == [RestartContainer, ScaleDeployment]
  {
    var steps := [RestartStep, ScaleStep];
    RestartStepAction();
    ScaleStepAction();
    assert MatchedActions(ActionKeywords, steps, 1) == [RestartContainer];
  }

  /**
   * Advice "* Restart the container\n* Scale up the deployment" resolves to
   * restarting the container and then scaling the deployment, in that order,
   * under every parser variant.
   */
  lemma TwoStepAdviceActions(v: Variant, podName: Option<string>)
    ensures var steps := Parse(v, TwoStepAdvice, podName).steps;
            |steps| == 2 && MatchedActions(ActionKeywords, steps, 2) == [RestartContainer, ScaleDeployment]
  {
    TwoStepAdviceParsed(v, podName);
    TwoStepsMatched();
  }
}
