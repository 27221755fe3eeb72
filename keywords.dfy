/**
 * The keyword table `ACTION_KEYWORDS` and the lookup that turns one advice step
 * into at most one action: the first entry, in table order, whose keyword occurs
 * in the step, both lower-cased.
 */
module Keywords {
  import opened Wrappers
  import opened Text

  datatype Action =
    | AdjustMemoryLimits
    | PrintLogs
    | RestartContainer
    | ScaleDeployment
    | FixImagePullError
    | AdjustCpuLimits
    | AdjustResourceLimits
    | IncreaseNodeResources
    | CheckNetworkConnectivity
    | InspectPodEvents
    | CheckLivenessReadiness
    | RebuildAndRedeployImage
    | RollbackChanges
    | IncreaseMemoryLimits

  /** The actions that only emit a message and append a record, with no cluster call. */
  predicate IsAdvisory(a: Action) {
    a.IncreaseNodeResources? || a.CheckNetworkConnectivity? || a.InspectPodEvents?
    || a.CheckLivenessReadiness? || a.RebuildAndRedeployImage? || a.RollbackChanges?
  }

  /** The keyword table, in its declaration order. */
  const ActionKeywords: seq<(string, Action)> := [
    ("high memory usage", AdjustMemoryLimits),
    ("memory limit", AdjustMemoryLimits),
    ("container logs", PrintLogs),
    ("restart", RestartContainer),
    ("scale up", ScaleDeployment),
    ("image pull", FixImagePullError),
    ("access denied", FixImagePullError),
    ("cpu limit", AdjustCpuLimits),
    ("container resource limits", AdjustResourceLimits),
    ("node resources", IncreaseNodeResources),
    ("network connectivity", CheckNetworkConnectivity),
    ("pod events", InspectPodEvents),
    ("liveness readiness", CheckLivenessReadiness),
    ("rebuild image", RebuildAndRedeployImage),
    ("rollback", RollbackChanges),
    ("increase resource limits (memory)", IncreaseMemoryLimits)
  ]

  /** `keyword.lower() in step.lower()`. */
  predicate Matches(step: string, keyword: string) {
    Contains(Lower(step), Lower(keyword))
  }

  /** The index of the first entry of `table` whose keyword matches `step`. */
  function FirstMatch(table: seq<(string, Action)>, step: string): (r: Option<nat>)
    ensures r.Some? ==> r.value < |table| && Matches(step, table[r.value].0)
    ensures r.Some? ==> forall j :: 0 <= j < r.value ==> !Matches(step, table[j].0)
    ensures r.None? ==> forall j :: 0 <= j < |table| ==> !Matches(step, table[j].0)
    decreases |table|
  {
    if table == [] then None
    else if Matches(step, table[0].0) then Some(0)
    else match FirstMatch(table[1..], step)
      case None => None
      case Some(i) => Some(i + 1)
  }

  /** The action a step resolves to under `table`, `None` when no keyword occurs in it. */
  function ActionIn(table: seq<(string, Action)>, step: string): Option<Action> {
    match FirstMatch(table, step)
    case None => None
    case Some(i) => Some(table[i].1)
  }

  /** The action a step resolves to under the keyword table. */
  function ActionFor(step: string): Option<Action> {
    ActionIn(ActionKeywords, step)
  }

  /**
   * The keyword loop of `solution_implementation`: scan the table in order and
   * stop at the first keyword that occurs in the lower-cased step.
   */
  method LookupAction(table: seq<(string, Action)>, step: string) returns (action: Option<Action>)
    ensures action == ActionIn(table, step)
    ensures action.None? <==> forall j :: 0 <= j < |table| ==> !Matches(step, table[j].0)
  {
    action := None;
    var lowered := Lower(step);
    var i := 0;
    while i < |table|
      invariant 0 <= i <= |table|
      invariant action.None?
      invariant forall j :: 0 <= j < i ==> !Matches(step, table[j].0)
    {
      var (keyword, mapped) := table[i];
      if Contains(lowered, Lower(keyword)) {
        action := Some(mapped);
        FirstMatchAt(table, step, i);
        break;
      }
      i := i + 1;
    }
  }

  /** The first matching entry is the one `FirstMatch` finds. */
  lemma FirstMatchAt(table: seq<(string, Action)>, step: string, i: nat)
    requires i < |table| && Matches(step, table[i].0)
    requires forall j :: 0 <= j < i ==> !Matches(step, table[j].0)
    ensures FirstMatch(table, step) == Some(i)
  {
    var r := FirstMatch(table, step);
    assert r.Some?;
    assert r.value == i;
  }

  /**
   * First match wins: a step in which entry `i` matches and no earlier entry
   * does resolves to entry `i`'s action, whatever later entries also match.
   */
  lemma FirstMatchWins(step: string, i: nat)
    requires i < |ActionKeywords| && Matches(step, ActionKeywords[i].0)
    requires forall j :: 0 <= j < i ==> !Matches(step, ActionKeywords[j].0)
    ensures ActionFor(step) == Some(ActionKeywords[i].1)
  {
    FirstMatchAt(ActionKeywords, step, i);
  }

  /** Resolution is case-insensitive: steps equal up to case resolve alike. */
  lemma {:induction false} CaseInsensitive(table: seq<(string, Action)>, s: string, t: string)
    requires Lower(s) == Lower(t)
    ensures FirstMatch(table, s) == FirstMatch(table, t)
    decreases |table|
  {
    if table != [] {
      CaseInsensitive(table[1..], s, t);
    }
  }

  /** A keyword holding a lower-case character the lower-cased step lacks does not match it. */
  lemma NotMatchedFor(step: string, keyword: string, k: nat)
    requires k < |keyword| && !IsUpper(keyword[k]) && keyword[k] !in Lower(step)
    ensures !Matches(step, keyword)
  {
    assert Lower(keyword)[k] == keyword[k];
    MissingCharNotContained(Lower(step), Lower(keyword), keyword[k]);
  }

  /** An advice step that contains both "restart" and "scale up". */
  const RestartAndScaleStep: string := "restart and scale up"

  lemma ExampleSkipsHighMemoryUsage()
    ensures !Matches(RestartAndScaleStep, ActionKeywords[0].0)
  {
    var step := RestartAndScaleStep;
    LowerOfLowerCase(step);
    assert 'g' !in step;
    assert ActionKeywords[0].0 == "high memory usage";
    NotMatchedFor(step, ActionKeywords[0].0, 2);
  }

  lemma ExampleSkipsMemoryLimit()
    ensures !Matches(RestartAndScaleStep, ActionKeywords[1].0)
  {
    var step := RestartAndScaleStep;
    LowerOfLowerCase(step);
    assert 'i' !in step;
    assert ActionKeywords[1].0 == "memory limit";
    NotMatchedFor(step, ActionKeywords[1].0, 8);
  }

  lemma ExampleSkipsLogsEntry()
    ensures !Matches(RestartAndScaleStep, ActionKeywords[2].0)
  {
    var step := RestartAndScaleStep;
    LowerOfLowerCase(step);
    assert 'i' !in step;
    assert ActionKeywords[2].0 == "container logs";
    NotMatchedFor(step, ActionKeywords[2].0, 5);
  }

  lemma ExampleMatchesRestart()
    ensures Matches(RestartAndScaleStep, ActionKeywords[3].0)
  {
    var step := RestartAndScaleStep;
    LowerOfLowerCase(step);
    assert ActionKeywords[3].0 == "restart";
    LowerOfLowerCase("restart");
    assert step[0..7] == "restart";
    assert OccursAt(step, "restart", 0);
  }

  lemma ExampleAlsoMatchesScaleUp()
    ensures Matches(RestartAndScaleStep, ActionKeywords[4].0)
  {
    var step := RestartAndScaleStep;
    LowerOfLowerCase(step);
    assert ActionKeywords[4].0 == "scale up";
    LowerOfLowerCase("scale up");
    assert step[12..20] == "scale up";
    assert OccursAt(step, "scale up", 12);
  }

  /**
   * A step containing both "restart" and "scale up" (and none of the first three
   * keywords) resolves to restarting the container, not to scaling.
   */
  lemma RestartBeatsScaleUp()
    ensures Matches(RestartAndScaleStep, "restart") && Matches(RestartAndScaleStep, "scale up")
    ensures ActionFor(RestartAndScaleStep) == Some(RestartContainer)
  {
    ExampleSkipsHighMemoryUsage();
    ExampleSkipsMemoryLimit();
    ExampleSkipsLogsEntry();
    ExampleMatchesRestart();
    ExampleAlsoMatchesScaleUp();
    FirstMatchWins(RestartAndScaleStep, 3);
  }
}
