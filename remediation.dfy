/**
 * The remediation engine: the actions that act on the cluster, the keyword
 * dispatch of `solution_implementation`, the failure ledger and the periodic
 * alert that drains it.
 *
 * Each operation is specified by a function of the cluster oracle and the
 * number of calls issued before it, giving the `Effect` of the call: the ledger
 * records it appends, the API calls it issues, the messages it emits through
 * `emit_callback`, and the exception that escapes it, if any. The class
 * `Remediator` holds the engine's state and runs the operations step by step;
 * each method is proved to have exactly the effect its function gives.
 */
module Remediation {
  import opened Wrappers
  import opened Text
  import opened Kube
  import opened Patches
  import opened Keywords
  import opened Ledger

  /** The exceptions that can escape `solution_implementation`. */
  datatype PyError =
    | ValueError(message: string)
    | ApiException(status: int, reason: string)
    | IndexError
    | TypeError

  const InvalidPodJson: string := "Invalid or missing pod JSON data."

  /**
   * A message passed to `emit_callback`; `MessageText` gives the text the
   * callback receives.
   */
  datatype Message =
    | PatchBodyMissing
    | Patched
    | PatchFailed(reason: string)
    | ImageFixed
    | ImagePatchFailed(reason: string)
    | Scaled(deployment: string, replicas: int)
    | ScaleFailed(reason: string)
    | Deleted(pod: string)
    | DeleteFailed(reason: string)
    | RecentLogs
    | LogsShown(logs: string)
    | LogsFailed(reason: string)
    | IncreasingMemory
    | Advice(action: Action)
    | GeneralStep(step: string)
    | NoPod

  function MessageText(m: Message): string {
    match m
    case PatchBodyMissing => "Patch body is missing. Cannot proceed."
    case Patched => "✅ Patched deployment with updated resource settings."
    case PatchFailed(reason) => "Failed to patch deployment: " + reason
    case ImageFixed => "✅ Fixed image pull error by updating image and secrets."
    case ImagePatchFailed(reason) => " Failed to patch image or secrets: " + reason
    case Scaled(deployment, replicas) => "✅ Scaled deployment " + deployment + " to " + IntString(replicas) + " replicas."
    case ScaleFailed(reason) => "Failed to scale deployment: " + reason
    case Deleted(pod) => "♻️ Deleted pod " + pod + " for restart."
    case DeleteFailed(reason) => "Failed to delete pod: " + reason
    case RecentLogs => "🔍 Recent logs:"
    case LogsShown(logs) => LogExcerpt(logs)
    case LogsFailed(reason) => "Could not fetch logs: " + reason
    case IncreasingMemory => "Increasing memory limits for deployment..."
    case Advice(action) => AdvisoryText(action)
    case GeneralStep(step) => "🔄 Executing general step: " + step
    case NoPod => "No pod found to act on. Skipping solution."
  }

  /** The message of the actions that only advise (and the empty text for the others, which emit none). */
  function AdvisoryText(a: Action): string {
    match a
    case IncreaseNodeResources =>
      "Considering increasing node resources (CPU/Memory). Adjusting settings as necessary."
    case CheckNetworkConnectivity =>
      "Check for network connectivity issues, especially if the container has issues pulling images or communicating with other services."
    case InspectPodEvents => "Inspect Kubernetes events for the failing pods to gather more info."
    case CheckLivenessReadiness => "Review and adjust liveness and readiness probes for better health checks."
    case RebuildAndRedeployImage => "Rebuilding and redeploying the container image."
    case RollbackChanges => "Rolling back to a previous version of the deployment."
    case _ => ""
  }

  /**
   * An entry of the ledger: the record an action appends when it completes, the
   * record of a failed log fetch, or the record of a run without a pod.
   * `EntryRecord` gives the dictionary each one stands for.
   */
  datatype Entry = Acted(action: Action) | LogsFetchFailed(reason: string) | NoPodFound

  /** What one operation does: ledger entries, API calls, emitted messages, escaping exception. */
  datatype Effect = Effect(entries: seq<Entry>, calls: seq<Call>, emitted: seq<Message>, raised: Option<PyError>)

  const NoEffect: Effect := Effect([], [], [], None)

  /** `a` followed by `b`. */
  function Then(a: Effect, b: Effect): Effect {
    Effect(a.entries + b.entries, a.calls + b.calls, a.emitted + b.emitted, b.raised)
  }

  // ---------------------------------------------------------------------
  // generate_patch_from_pod_json

  /** The outcome of building a patch: a body, `None` after a 404, or an exception. */
  datatype GenResult = Built(body: Patch) | NotFound | Raised(err: PyError)

  datatype PatchGen = PatchGen(calls: seq<Call>, result: GenResult)

  /** A pod JSON that is truthy and has `spec` holding `containers`. */
  predicate WellFormed(p: PodJson) {
    p.Dict? && !Falsy(p) && p.spec.Some? && p.spec.value.containers.Some?
  }

  /** The validation and patch loop once the pod JSON is settled. */
  function PatchFor(p: PodJson, request: Option<string>, limit: Option<string>): (r: GenResult)
    ensures r.NotFound? == false
    ensures r.Raised? <==> !WellFormed(p)
    ensures r.Raised? ==> r.err == ValueError(InvalidPodJson)
    ensures r.Built? ==> r.body.ResourcePatch? && |r.body.containers| == |p.spec.value.containers.value|
  {
    if !WellFormed(p) then Raised(ValueError(InvalidPodJson))
    else Built(ResourcePatch(MemoryPatches(p.spec.value.containers.value, request, limit)))
  }

  /**
   * `generate_patch_from_pod_json`: the pod is read from the cluster only when
   * the given JSON is falsy and both a pod name and a namespace are given; a 404
   * gives no patch, any other API error escapes.
   */
  function PatchFromPodJson(api: Api, n: nat, podJson: PodJson, request: Option<string>, limit: Option<string>,
                            podName: Option<string>, namespace: Option<string>): (g: PatchGen)
    ensures |g.calls| <= 1 && NoMutation(g.calls)
    ensures g.calls != [] <==> Falsy(podJson) && Truthy(podName) && Truthy(namespace)
    ensures g.calls != [] ==> g.calls[0] == ReadPod(podName.value, namespace.value)
    ensures g.result.NotFound? <==> g.calls != [] && api.readPod(n).ApiError? && api.readPod(n).status == 404
    ensures g.result == Raised(ValueError(InvalidPodJson)) <==>
      (if g.calls == [] then !WellFormed(podJson) else api.readPod(n).Ok? && !WellFormed(api.readPod(n).value))
  {
    if Falsy(podJson) && Truthy(podName) && Truthy(namespace) then
      var call := ReadPod(podName.value, namespace.value);
      match api.readPod(n)
      case ApiError(status, reason) =>
        if status == 404 then PatchGen([call], NotFound)
        else PatchGen([call], Raised(ApiException(status, reason)))
      case Ok(fetched) => PatchGen([call], PatchFor(fetched, request, limit))
    else PatchGen([], PatchFor(podJson, request, limit))
  }

  // ---------------------------------------------------------------------
  // The cluster actions

  /** `diagnose_and_fix_pod`: patch the deployment with the body, if there is one. */
  function DiagnoseEffect(api: Api, n: nat, deployment: string, namespace: string, patch: Option<Patch>): (e: Effect)
    ensures e.entries == [] && e.raised.None? && |e.emitted| == 1
    ensures patch.None? <==> e.calls == []
    ensures patch.Some? ==> e.calls == [PatchDeployment(deployment, namespace, patch.value)]
    ensures patch.None? ==> e.emitted == [PatchBodyMissing]
    ensures patch.Some? && api.write(n).Ok? ==> e.emitted == [Patched]
    ensures patch.Some? && api.write(n).ApiError? ==> e.emitted == [PatchFailed(api.write(n).reason)]
  {
    match patch
    case None => Effect([], [], [PatchBodyMissing], None)
    case Some(body) =>
      var call := PatchDeployment(deployment, namespace, body);
      match api.write(n)
      case Ok(_) => Effect([], [call], [Patched], None)
      case ApiError(_, reason) => Effect([], [call], [PatchFailed(reason)], None)
  }

  /**
   * `fix_image_pull_error`: read the deployment, then patch its first container's
   * image and the pull secrets. A missing `json_input` and a deployment without
   * containers raise; an API error is reported and swallowed.
   */
  function ImageFixEffect(api: Api, n: nat, input: Option<FixInput>): (e: Effect)
    ensures e.entries == [] && |e.calls| <= 2 && |e.emitted| <= 1
    ensures input.None? ==> e == Effect([], [], [], Some(TypeError))
    ensures input.Some? ==> |e.calls| >= 1 && e.calls[0] == ReadDeployment(input.value.deploymentName, input.value.namespace)
    ensures e.raised.Some? <==> input.None? || (api.readDeployment(n).Ok? && api.readDeployment(n).value == [])
    ensures e.raised.Some? ==> e.raised == Some(TypeError) || e.raised == Some(IndexError)
    ensures |e.calls| == 2 <==> input.Some? && api.readDeployment(n).Ok? && api.readDeployment(n).value != []
    ensures |e.calls| == 2 ==> e.calls[1] == PatchDeployment(input.value.deploymentName, input.value.namespace,
                                              ImageFixPatch(api.readDeployment(n).value[0], input.value))
    ensures input.Some? && api.readDeployment(n).ApiError? ==>
              e.emitted == [ImagePatchFailed(api.readDeployment(n).reason)] && e.raised.None?
    ensures |e.calls| == 2 && api.write(n + 1).Ok? ==> e.emitted == [ImageFixed]
    ensures |e.calls| == 2 && api.write(n + 1).ApiError? ==> e.emitted == [ImagePatchFailed(api.write(n + 1).reason)]
  {
    match input
    case None => Effect([], [], [], Some(TypeError))
    case Some(json) =>
      var read := ReadDeployment(json.deploymentName, json.namespace);
      match api.readDeployment(n)
      case ApiError(_, reason) => Effect([], [read], [ImagePatchFailed(reason)], None)
      case Ok(containerNames) =>
        if containerNames == [] then Effect([], [read], [], Some(IndexError))
        else
          var call := PatchDeployment(json.deploymentName, json.namespace, ImageFixPatch(containerNames[0], json));
          match api.write(n + 1)
          case Ok(_) => Effect([], [read, call], [ImageFixed], None)
          case ApiError(_, reason) => Effect([], [read, call], [ImagePatchFailed(reason)], None)
  }

  /** `scale_deployment`: one scale patch `{"spec": {"replicas": replicas}}`. */
  function ScaleEffect(api: Api, n: nat, deployment: string, namespace: string, replicas: int): (e: Effect)
    ensures e.entries == [] && e.raised.None? && |e.emitted| == 1
    ensures e.calls == [PatchDeploymentScale(deployment, namespace, ScaleBody(replicas))]
    ensures e.calls[0].body.replicas == replicas
    ensures api.write(n).Ok? ==> e.emitted == [Scaled(deployment, replicas)]
    ensures api.write(n).ApiError? ==> e.emitted == [ScaleFailed(api.write(n).reason)]
  {
    var call := PatchDeploymentScale(deployment, namespace, ScaleBody(replicas));
    match api.write(n)
    case Ok(_) => Effect([], [call], [Scaled(deployment, replicas)], None)
    case ApiError(_, reason) => Effect([], [call], [ScaleFailed(reason)], None)
  }

  /** `delete_pod`: one delete of the named pod. */
  function DeleteEffect(api: Api, n: nat, pod: string, namespace: string): (e: Effect)
    ensures e.entries == [] && e.raised.None? && |e.emitted| == 1
    ensures e.calls == [Call.DeletePod(pod, namespace)]
    ensures api.write(n).Ok? ==> e.emitted == [Deleted(pod)]
    ensures api.write(n).ApiError? ==> e.emitted == [DeleteFailed(api.write(n).reason)]
  {
    var call := Call.DeletePod(pod, namespace);
    match api.write(n)
    case Ok(_) => Effect([], [call], [Deleted(pod)], None)
    case ApiError(_, reason) => Effect([], [call], [DeleteFailed(reason)], None)
  }

  // ---------------------------------------------------------------------
  // The records of the ledger

  /** The `action` text of the record each action appends. */
  function ActionLabel(a: Action): string {
    match a
    case AdjustMemoryLimits => "Adjust memory limits"
    case AdjustCpuLimits => "Adjust CPU limits"
    case PrintLogs => "Print logs"
    case RestartContainer => "Restart container"
    case ScaleDeployment => "Scale deployment to 3 replicas"
    case IncreaseMemoryLimits => "Increase memory limits to 512Mi request and 1Gi limit"
    case FixImagePullError => "Fix image pull error"
    case AdjustResourceLimits => "Adjust resource limits"
    case IncreaseNodeResources => "Increase node resources"
    case CheckNetworkConnectivity => "Check network connectivity"
    case InspectPodEvents => "Inspect pod events"
    case CheckLivenessReadiness => "Check and adjust probes"
    case RebuildAndRedeployImage => "Rebuild and redeploy image"
    case RollbackChanges => "Rollback deployment changes"
  }

  /** The `failure` text of the record each action appends. */
  function FailureName(a: Action): string {
    match a
    case AdjustMemoryLimits => "Memory limits adjustment"
    case AdjustCpuLimits => "CPU limits adjustment"
    case PrintLogs => "Fetch logs"
    case RestartContainer => "Container restart"
    case ScaleDeployment => "Scale deployment"
    case IncreaseMemoryLimits => "Increase memory limits"
    case FixImagePullError => "Image pull error"
    case AdjustResourceLimits => "Adjust resource limits"
    case IncreaseNodeResources => "Increase node resources"
    case CheckNetworkConnectivity => "Network connectivity"
    case InspectPodEvents => "Inspect pod events"
    case CheckLivenessReadiness => "Liveness/Readiness probes"
    case RebuildAndRedeployImage => "Rebuild and redeploy image"
    case RollbackChanges => "Rollback changes"
  }

  /** The `error_message` text of the record each action appends. */
  function Outcome(a: Action): string {
    match a
    case AdjustMemoryLimits => "Adjusted memory limits based on the pod JSON."
    case AdjustCpuLimits => "Adjusted CPU limits to 512Mi memory request and 1Gi memory limit."
    case PrintLogs => "Fetched logs from the pod."
    case RestartContainer => "Pod was deleted to restart the container."
    case ScaleDeployment => "Scaled deployment to 3 replicas."
    case IncreaseMemoryLimits => "Memory limits increased to 512Mi and 1Gi."
    case FixImagePullError => "Fixed the image pull error."
    case AdjustResourceLimits => "Adjusted resource limits based on pod JSON."
    case IncreaseNodeResources => "Node resources adjusted for better performance."
    case CheckNetworkConnectivity => "Checked network connectivity."
    case InspectPodEvents => "Inspected pod events for failure analysis."
    case CheckLivenessReadiness => "Adjusted liveness and readiness probes."
    case RebuildAndRedeployImage => "Rebuilt and redeployed the container image."
    case RollbackChanges => "Rolled back to a previous version of the deployment."
  }

  /** The dictionary each entry appends to `failure_details`. */
  function EntryRecord(entry: Entry): (r: Record)
    ensures entry.Acted? ==> r == Record(FailureName(entry.action), ActionLabel(entry.action), Some(Outcome(entry.action)))
    ensures entry.LogsFetchFailed? ==> r == Record("Fetch logs failed", "Print logs", Some(entry.reason))
    ensures entry.NoPodFound? ==> r == Record("No pod found", "Skipping solution", Some("Pod name was not provided."))
    ensures r.errorMessage.Some?
  {
    match entry
    case NoPodFound => Record("No pod found", "Skipping solution", Some("Pod name was not provided."))
    case LogsFetchFailed(reason) => Record("Fetch logs failed", ActionLabel(PrintLogs), Some(reason))
    case Acted(a) => Record(FailureName(a), ActionLabel(a), Some(Outcome(a)))
  }

  /** The ledger as the alert sees it. */
  function Records(entries: seq<Entry>): (rs: seq<Record>)
    ensures |rs| == |entries| && forall i :: 0 <= i < |entries| ==> rs[i] == EntryRecord(entries[i])
  {
    seq(|entries|, i requires 0 <= i < |entries| => EntryRecord(entries[i]))
  }

  /** An entry written for `action`: its completion record, or for logs a failed fetch. */
  predicate Describes(entry: Entry, action: Action) {
    entry == Acted(action) || (action.PrintLogs? && entry.LogsFetchFailed?)
  }

  // ---------------------------------------------------------------------
  // One step of solution_implementation

  /** The arguments `solution_implementation` passes to every step. */
  datatype Context = Context(table: seq<(string, Action)>, deployment: string, namespace: string,
                             podName: string, podJson: PodJson, jsonInput: Option<FixInput>)

  /** The actions that change the cluster: the patches, the delete and the scale. */
  predicate Mutating(a: Action) {
    !IsAdvisory(a) && !a.PrintLogs?
  }

  /** The actions from which an exception can escape: those that build or send a patch body. */
  predicate MayRaise(a: Action) {
    a.AdjustMemoryLimits? || a.AdjustCpuLimits? || a.IncreaseMemoryLimits?
    || a.AdjustResourceLimits? || a.FixImagePullError?
  }

  /**
   * The shared shape of the four patch actions: emit `before`, generate the
   * patch, hand it to `diagnose_and_fix_pod`, append `record`. An exception from
   * the generation escapes before anything is patched or recorded.
   */
  function PatchStep(api: Api, n: nat, ctx: Context, request: Option<string>, limit: Option<string>,
                     podName: Option<string>, namespace: Option<string>, before: seq<Message>, action: Action): (e: Effect)
    ensures e.raised.Some? ==> e.entries == [] && |e.calls| <= 1 && NoMutation(e.calls)
    ensures e.raised.None? ==> e.entries == [Acted(action)]
  {
    var g := PatchFromPodJson(api, n, ctx.podJson, request, limit, podName, namespace);
    match g.result
    case Raised(err) => Effect([], g.calls, before, Some(err))
    case NotFound =>
      var d := DiagnoseEffect(api, n + |g.calls|, ctx.deployment, ctx.namespace, None);
      Effect([Acted(action)], g.calls + d.calls, before + d.emitted, None)
    case Built(body) =>
      var d := DiagnoseEffect(api, n + |g.calls|, ctx.deployment, ctx.namespace, Some(body));
      Effect([Acted(action)], g.calls + d.calls, before + d.emitted, None)
  }

  /** The print-logs action: read the previous container's last 50 lines and show an excerpt. */
  function LogsEffect(api: Api, n: nat, pod: string, namespace: string): (e: Effect)
    ensures e.calls == [ReadPodLog(pod, namespace, true, 50)] && e.raised.None?
    ensures api.readPodLog(n).Ok? ==>
      e.entries == [Acted(PrintLogs)] && e.emitted == [RecentLogs, LogsShown(api.readPodLog(n).value)]
    ensures api.readPodLog(n).ApiError? ==>
      e.entries == [LogsFetchFailed(api.readPodLog(n).reason)] && e.emitted == [LogsFailed(api.readPodLog(n).reason)]
  {
    var call := ReadPodLog(pod, namespace, true, 50);
    match api.readPodLog(n)
    case Ok(logs) => Effect([Acted(PrintLogs)], [call], [RecentLogs, LogsShown(logs)], None)
    case ApiError(_, reason) => Effect([LogsFetchFailed(reason)], [call], [LogsFailed(reason)], None)
  }

  /** What the action a step resolved to does. */
  function ActionEffect(api: Api, n: nat, action: Action, ctx: Context): (e: Effect)
    ensures e.raised.None? ==> |e.entries| == 1 && Describes(e.entries[0], action)
  {
    var noted := Effect([Acted(action)], [], [], None);
    if action.AdjustMemoryLimits? || action.AdjustResourceLimits? then
      PatchStep(api, n, ctx, None, None, Some(ctx.podName), Some(ctx.namespace), [], action)
    else if action.AdjustCpuLimits? then
      PatchStep(api, n, ctx, Some("512Mi"), Some("1Gi"), None, None, [], action)
    else if action.IncreaseMemoryLimits? then
      PatchStep(api, n, ctx, Some("512Mi"), Some("1Gi"), None, None,
                [IncreasingMemory], action)
    else if action.PrintLogs? then LogsEffect(api, n, ctx.podName, ctx.namespace)
    else if action.RestartContainer? then Then(DeleteEffect(api, n, ctx.podName, ctx.namespace), noted)
    else if action.ScaleDeployment? then Then(ScaleEffect(api, n, ctx.deployment, ctx.namespace, 3), noted)
    else if action.FixImagePullError? then
      var f := ImageFixEffect(api, n, ctx.jsonInput);
      if f.raised.Some? then f else Then(f, noted)
    else Effect([Acted(action)], [], [Advice(action)], None)
  }

  lemma ActionEffectFacts(api: Api, n: nat, action: Action, ctx: Context)
    ensures var e := ActionEffect(api, n, action, ctx);
      (e.raised.Some? ==> e.entries == [] && MayRaise(action))
      && (!Mutating(action) ==> NoMutation(e.calls) && e.raised.None?)
      && (IsAdvisory(action) ==> e == Effect([Acted(action)], [], [Advice(action)], None))
  {
    var e := ActionEffect(api, n, action, ctx);
    if action.PrintLogs? {
      assert e == LogsEffect(api, n, ctx.podName, ctx.namespace);
    } else if IsAdvisory(action) {
    } else {
      assert Mutating(action);
    }
  }

  /** The body of the step loop of `solution_implementation` for one step. */
  function StepEffect(api: Api, n: nat, step: string, ctx: Context): (e: Effect)
  {
    match ActionIn(ctx.table, step)
    case None => Effect([], [], [GeneralStep(step)], None)
    case Some(action) => ActionEffect(api, n, action, ctx)
  }

  /**
   * What a step does, whatever the cluster replies: a step no keyword matches
   * only emits its text; a matched step appends one record for its action
   * unless an exception escapes; only the patch actions can raise, and then
   * nothing is recorded; the non-mutating actions change nothing on the cluster.
   */
  predicate StepOutcome(table: seq<(string, Action)>, step: string, e: Effect) {
    (ActionIn(table, step).None? ==> e == Effect([], [], [GeneralStep(step)], None))
    && (ActionIn(table, step).Some? && e.raised.None? ==>
          |e.entries| == 1 && Describes(e.entries[0], ActionIn(table, step).value))
    && (e.raised.Some? ==> e.entries == [] && ActionIn(table, step).Some? && MayRaise(ActionIn(table, step).value))
    && (ActionIn(table, step).Some? && !Mutating(ActionIn(table, step).value) ==> NoMutation(e.calls) && e.raised.None?)
  }

  /** Every step's effect has the outcome above. */
  lemma StepFacts(api: Api, n: nat, step: string, ctx: Context)
    ensures StepOutcome(ctx.table, step, StepEffect(api, n, step, ctx))
  {
    match ActionIn(ctx.table, step)
    case None =>
    case Some(a) => ActionEffectFacts(api, n, a, ctx);
  }

  // ---------------------------------------------------------------------
  // solution_implementation

  /** The steps as passed: one string, or a list of strings. */
  datatype Steps = OneStep(text: string) | StepList(items: seq<string>)

  /** A single string is treated as a one-element list. */
  function AsList(steps: Steps): (r: seq<string>)
    ensures steps.OneStep? ==> r == [steps.text]
    ensures steps.StepList? ==> r == steps.items
  {
    match steps
    case OneStep(text) => [text]
    case StepList(items) => items
  }

  /**
   * The step loop over the first `k` steps, for a loop body `step` that maps the
   * number of calls issued so far and a step to that step's effect: each step
   * in order, until one raises. The predictors' row loops have the same shape.
   */
  function RunSteps<T>(step: (nat, T) -> Effect, n: nat, steps: seq<T>, k: nat): Effect
    requires k <= |steps|
    decreases k, 2
  {
    if k == 0 then NoEffect else Then(RunSteps(step, n, steps, k - 1), Added(step, n, steps, k))
  }

  /**
   * What the `k`-th step adds to the run: nothing once an earlier step has
   * raised (the exception stays the run's outcome), its own effect otherwise.
   */
  function Added<T>(step: (nat, T) -> Effect, n: nat, steps: seq<T>, k: nat): Effect
    requires 1 <= k <= |steps|
    decreases k, 1
  {
    var before := RunSteps(step, n, steps, k - 1);
    if before.raised.Some? then Effect([], [], [], before.raised) else Ran(step, n, steps, k)
  }

  /** The effect of the `k`-th step, run once the steps before it have issued their calls. */
  function Ran<T>(step: (nat, T) -> Effect, n: nat, steps: seq<T>, k: nat): Effect
    requires 1 <= k <= |steps|
    decreases k, 0
  {
    step(n + |RunSteps(step, n, steps, k - 1).calls|, steps[k - 1])
  }

  /** The loop body of `solution_implementation` in the given context. */
  function StepFn(api: Api, ctx: Context): (nat, string) -> Effect {
    (m: nat, s: string) => StepEffect(api, m, s, ctx)
  }

  /** Every effect of the loop body has the outcome of a step. */
  ghost predicate Obeys(step: (nat, string) -> Effect, table: seq<(string, Action)>) {
    forall m: nat, s: string :: StepOutcome(table, s, step(m, s))
  }

  lemma StepFnObeys(api: Api, ctx: Context)
    ensures Obeys(StepFn(api, ctx), ctx.table)
  {
    forall m: nat, s: string ensures StepOutcome(ctx.table, s, StepFn(api, ctx)(m, s)) {
      StepFacts(api, m, s, ctx);
    }
  }

  /** The observable state of the engine. */
  datatype Snapshot = Snapshot(failureDetails: seq<Entry>, history: seq<Entry>, calls: seq<Call>,
                               emitted: seq<Message>, flushed: seq<Entry>, alerts: seq<string>)

  /** The state after `e` ran in `s`: its entries, calls and messages appended. */
  function After(s: Snapshot, e: Effect): Snapshot {
    Snapshot(s.failureDetails + e.entries, s.history + e.entries, s.calls + e.calls,
             s.emitted + e.emitted, s.flushed, s.alerts)
  }

  lemma AfterThen(s: Snapshot, a: Effect, b: Effect)
    ensures After(After(s, a), b) == After(s, Then(a, b))
  {
    AppendAssoc(s.failureDetails, a.entries, b.entries);
    AppendAssoc(s.history, a.entries, b.entries);
    AppendAssoc(s.calls, a.calls, b.calls);
    AppendAssoc(s.emitted, a.emitted, b.emitted);
  }

  /** What `after` added to `before`: the entries, calls and messages beyond them, and the outcome. */
  predicate Longer(after: Effect, before: Effect) {
    |before.entries| <= |after.entries| && |before.calls| <= |after.calls| && |before.emitted| <= |after.emitted|
  }

  function Since(before: Effect, after: Effect): Effect
    requires Longer(after, before)
  {
    Effect(after.entries[|before.entries|..], after.calls[|before.calls|..], after.emitted[|before.emitted|..], after.raised)
  }

  lemma SinceThen(a: Effect, b: Effect)
    ensures Longer(Then(a, b), a) && Since(a, Then(a, b)) == b
  {
    assert (a.entries + b.entries)[|a.entries|..] == b.entries;
    assert (a.calls + b.calls)[|a.calls|..] == b.calls;
    assert (a.emitted + b.emitted)[|a.emitted|..] == b.emitted;
  }

  /** `solution_implementation`: without a pod, one skip record; otherwise the step loop. */
  function Solve(api: Api, n: nat, table: seq<(string, Action)>, steps: Steps, deployment: string, namespace: string,
                 podName: Option<string>, podJson: PodJson, jsonInput: Option<FixInput>): Effect
  {
    if !Truthy(podName) then Effect([NoPodFound], [], [NoPod], None)
    else
      var list := AsList(steps);
      var ctx := Context(table, deployment, namespace, podName.value, podJson, jsonInput);
      RunSteps(StepFn(api, ctx), n, list, |list|)
  }

  /** The actions the first `k` steps resolve to, in step order, skipping steps no keyword matches. */
  function MatchedActions(table: seq<(string, Action)>, steps: seq<string>, k: nat): seq<Action>
    requires k <= |steps|
    decreases k
  {
    if k == 0 then []
    else
      MatchedActions(table, steps, k - 1)
      + match ActionIn(table, steps[k - 1]) case None => [] case Some(a) => [a]
  }

  /**
   * The ledger gains one entry per matched step, in step order, written for that
   * step's action; when an exception stops the loop, the entries are those of
   * the matched steps before it.
   */
  lemma {:induction false} RecordsFollowMatchedActions(step: (nat, string) -> Effect, table: seq<(string, Action)>,
                                                       n: nat, steps: seq<string>, k: nat)
    requires k <= |steps| && Obeys(step, table)
    ensures var e := RunSteps(step, n, steps, k);
      |e.entries| <= |MatchedActions(table, steps, k)|
      && (e.raised.None? ==> |e.entries| == |MatchedActions(table, steps, k)|)
      && forall i :: 0 <= i < |e.entries| ==> Describes(e.entries[i], MatchedActions(table, steps, k)[i])
    decreases k
  {
    if k > 0 {
      RecordsFollowMatchedActions(step, table, n, steps, k - 1);
      var before := RunSteps(step, n, steps, k - 1);
      if before.raised.None? {
        var added := Ran(step, n, steps, k);
        assert StepOutcome(table, steps[k - 1], added);
      }
    }
  }

  /** The step loop stops at the first exception: later steps have no effect. */
  lemma {:induction false} RaiseStopsRun<T>(step: (nat, T) -> Effect, n: nat, steps: seq<T>, k: nat, j: nat)
    requires k <= j <= |steps|
    requires RunSteps(step, n, steps, k).raised.Some?
    ensures RunSteps(step, n, steps, j) == RunSteps(step, n, steps, k)
    decreases j
  {
    if j > k {
      RaiseStopsRun(step, n, steps, k, j - 1);
    }
  }

  lemma NoMutationAppend(a: seq<Call>, b: seq<Call>)
    requires NoMutation(a) && NoMutation(b)
    ensures NoMutation(a + b)
  {
    forall i | 0 <= i < |a + b| ensures !IsMutation((a + b)[i]) {
      if i >= |a| {
        assert (a + b)[i] == b[i - |a|];
      }
    }
  }

  predicate MutatingStep(table: seq<(string, Action)>, step: string) {
    ActionIn(table, step).Some? && Mutating(ActionIn(table, step).value)
  }

  /**
   * Steps that only fetch logs, advise or match nothing never change the
   * cluster and never raise.
   */
  lemma {:induction false} ReadOnlyStepsMutateNothing(step: (nat, string) -> Effect, table: seq<(string, Action)>,
                                                      n: nat, steps: seq<string>, k: nat)
    requires k <= |steps| && Obeys(step, table)
    requires forall i :: 0 <= i < |steps| ==> !MutatingStep(table, steps[i])
    ensures NoMutation(RunSteps(step, n, steps, k).calls) && RunSteps(step, n, steps, k).raised.None?
    decreases k
  {
    if k > 0 {
      ReadOnlyStepsMutateNothing(step, table, n, steps, k - 1);
      var before := RunSteps(step, n, steps, k - 1);
      var added := Ran(step, n, steps, k);
      assert StepOutcome(table, steps[k - 1], added);
      assert !MutatingStep(table, steps[k - 1]);
      NoMutationAppend(before.calls, added.calls);
    }
  }

  /** Without a pod name, nothing is called and one skip record is written. */
  lemma NoPodSkipsSolution(api: Api, n: nat, table: seq<(string, Action)>, steps: Steps, deployment: string, namespace: string,
                           podJson: PodJson, jsonInput: Option<FixInput>)
    ensures var e := Solve(api, n, table, steps, deployment, namespace, Some(""), podJson, jsonInput);
      e.entries == [NoPodFound] && e.calls == [] && e.emitted == [NoPod] && e.raised.None?
    ensures Solve(api, n, table, steps, deployment, namespace, None, podJson, jsonInput)
         == Solve(api, n, table, steps, deployment, namespace, Some(""), podJson, jsonInput)
  {
  }

  /**
   * The CPU and increase-memory actions pass no pod name, so with `pod_json` `{}`
   * (as the analysis server passes it) they raise `ValueError` before any call
   * and write no record.
   */
  lemma FixedLimitsNeedPodJson(api: Api, n: nat, step: string, ctx: Context)
    requires ActionIn(ctx.table, step) == Some(AdjustCpuLimits) || ActionIn(ctx.table, step) == Some(IncreaseMemoryLimits)
    requires Falsy(ctx.podJson)
    ensures StepEffect(api, n, step, ctx).raised == Some(ValueError(InvalidPodJson))
    ensures StepEffect(api, n, step, ctx).calls == [] && StepEffect(api, n, step, ctx).entries == []
  {
    var g := PatchFromPodJson(api, n, ctx.podJson, Some("512Mi"), Some("1Gi"), None, None);
    assert g.calls == [];
  }

  /**
   * The memory and resource actions with a falsy `pod_json` read the pod; when
   * the read pod is well formed, the deployment is patched with its containers,
   * every one of them getting the values resolved for the first container.
   */
  lemma MemoryStepPatchesFetchedPod(api: Api, n: nat, step: string, ctx: Context)
    requires ActionIn(ctx.table, step) == Some(AdjustMemoryLimits) || ActionIn(ctx.table, step) == Some(AdjustResourceLimits)
    requires Falsy(ctx.podJson) && ctx.podName != "" && ctx.namespace != ""
    requires api.readPod(n).Ok? && WellFormed(api.readPod(n).value)
    ensures var cs := api.readPod(n).value.spec.value.containers.value;
      StepEffect(api, n, step, ctx).calls
      == [ReadPod(ctx.podName, ctx.namespace),
          PatchDeployment(ctx.deployment, ctx.namespace, ResourcePatch(MemoryPatches(cs, None, None)))]
  {
  }

  /** The scale action always asks for three replicas of the context's deployment. */
  lemma ScaleStepAsksForThree(api: Api, n: nat, step: string, ctx: Context)
    requires ActionIn(ctx.table, step) == Some(ScaleDeployment)
    ensures StepEffect(api, n, step, ctx).calls == [PatchDeploymentScale(ctx.deployment, ctx.namespace, ScalePatch(3))]
    ensures StepEffect(api, n, step, ctx).entries == [Acted(ScaleDeployment)]
  {
  }

  // ---------------------------------------------------------------------
  // The engine's state

  /**
   * The engine's state: the module-level ledger `failure_details`, the calls it
   * has issued on the cluster, the messages it has passed to `emit_callback`, and
   * the alert bodies delivered by e-mail. `history` holds every record ever
   * appended and `flushed` those an alert tick has drained from the ledger.
   */
  class Remediator {
    const api: Api
    const table: seq<(string, Action)>
    var failureDetails: seq<Entry>
    var calls: seq<Call>
    var emitted: seq<Message>
    var alerts: seq<string>
    ghost var history: seq<Entry>
    ghost var flushed: seq<Entry>

    /**
     * Every record is either still in the ledger or was drained by an alert
     * tick (`flushed`), whether or not that tick's e-mail went out.
     */
    ghost predicate Valid()
      reads this
    {
      flushed + failureDetails == history
    }

    constructor(api: Api)
      ensures this.api == api && table == ActionKeywords && Valid()
      ensures failureDetails == [] && calls == [] && emitted == [] && alerts == [] && history == []
    {
      this.api := api;
      table := ActionKeywords;
      failureDetails := [];
      calls := [];
      emitted := [];
      alerts := [];
      history := [];
      flushed := [];
    }

    /** The state changed by exactly the records, calls and messages of `e`. */
    ghost function State(): Snapshot
      reads this
    {
      Snapshot(failureDetails, history, calls, emitted, flushed, alerts)
    }

    twostate predicate Extends(e: Effect)
      reads this
    {
      failureDetails == old(failureDetails) + e.entries
      && history == old(history) + e.entries
      && calls == old(calls) + e.calls
      && emitted == old(emitted) + e.emitted
      && flushed == old(flushed) && alerts == old(alerts)
    }

    method Emit(message: Message)
      modifies this
      ensures Extends(Effect([], [], [message], None))
    {
      emitted := emitted + [message];
    }

    /** `failure_details.append(record)`. */
    method Append(entry: Entry)
      requires Valid()
      modifies this
      ensures Valid() && Extends(Effect([entry], [], [], None))
    {
      failureDetails := failureDetails + [entry];
      history := history + [entry];
    }

    method ReadNamespacedPod(pod: string, namespace: string) returns (reply: Reply<PodJson>)
      modifies this
      ensures reply == api.readPod(old(|calls|))
      ensures Extends(Effect([], [ReadPod(pod, namespace)], [], None))
    {
      reply := api.readPod(|calls|);
      calls := calls + [ReadPod(pod, namespace)];
    }

    method ReadNamespacedDeployment(deployment: string, namespace: string) returns (reply: Reply<seq<string>>)
      modifies this
      ensures reply == api.readDeployment(old(|calls|))
      ensures Extends(Effect([], [ReadDeployment(deployment, namespace)], [], None))
    {
      reply := api.readDeployment(|calls|);
      calls := calls + [ReadDeployment(deployment, namespace)];
    }

    method ReadNamespacedPodLog(pod: string, namespace: string, previous: bool, tailLines: int)
      returns (reply: Reply<string>)
      modifies this
      ensures reply == api.readPodLog(old(|calls|))
      ensures Extends(Effect([], [ReadPodLog(pod, namespace, previous, tailLines)], [], None))
    {
      reply := api.readPodLog(|calls|);
      calls := calls + [ReadPodLog(pod, namespace, previous, tailLines)];
    }

    /** A patch, scale or delete call. */
    method Write(call: Call) returns (reply: Reply<()>)
      requires IsMutation(call)
      modifies this
      ensures reply == api.write(old(|calls|))
      ensures Extends(Effect([], [call], [], None))
    {
      reply := api.write(|calls|);
      calls := calls + [call];
    }

    method GeneratePatchFromPodJson(podJson: PodJson, request: Option<string>, limit: Option<string>,
                                    podName: Option<string>, namespace: Option<string>) returns (result: GenResult)
      modifies this
      ensures var g := PatchFromPodJson(api, old(|calls|), podJson, request, limit, podName, namespace);
        result == g.result && Extends(Effect([], g.calls, [], None))
    {
      var pod := podJson;
      if Falsy(podJson) && Truthy(podName) && Truthy(namespace) {
        var reply := ReadNamespacedPod(podName.value, namespace.value);
        match reply
        case ApiError(status, reason) =>
          if status == 404 {
            return NotFound;
          }
          return Raised(ApiException(status, reason));
        case Ok(fetched) =>
          pod := fetched;
      }
      if !WellFormed(pod) {
        return Raised(ValueError(InvalidPodJson));
      }
      var containers := BuildPatchContainers(pod.spec.value.containers.value, request, limit);
      result := Built(ResourcePatch(containers));
    }

    method DiagnoseAndFixPod(deployment: string, namespace: string, patch: Option<Patch>)
      modifies this
      ensures Extends(DiagnoseEffect(api, old(|calls|), deployment, namespace, patch))
    {
      if patch.None? {
        Emit(PatchBodyMissing);
        return;
      }
      var reply := Write(PatchDeployment(deployment, namespace, patch.value));
      match reply
      case Ok(_) => Emit(Patched);
      case ApiError(_, reason) => Emit(PatchFailed(reason));
    }

    method FixImagePullError(input: Option<FixInput>) returns (raised: Option<PyError>)
      modifies this
      ensures var e := ImageFixEffect(api, old(|calls|), input);
        Extends(e) && raised == e.raised
    {
      if input.None? {
        return Some(TypeError);
      }
      var json := input.value;
      var reply := ReadNamespacedDeployment(json.deploymentName, json.namespace);
      match reply
      case ApiError(_, reason) =>
        Emit(ImagePatchFailed(reason));
        return None;
      case Ok(containerNames) =>
        if containerNames == [] {
          return Some(IndexError);
        }
        var body := ImageFixPatch(containerNames[0], json);
        var written := Write(PatchDeployment(json.deploymentName, json.namespace, body));
        if written.Ok? {
          Emit(ImageFixed);
        } else {
          Emit(ImagePatchFailed(written.reason));
        }
        return None;
    }

    method ScaleDeployment(deployment: string, namespace: string, replicas: int)
      modifies this
      ensures Extends(ScaleEffect(api, old(|calls|), deployment, namespace, replicas))
    {
      var reply := Write(PatchDeploymentScale(deployment, namespace, ScaleBody(replicas)));
      match reply
      case Ok(_) => Emit(Scaled(deployment, replicas));
      case ApiError(_, reason) => Emit(ScaleFailed(reason));
    }

    method DeletePod(pod: string, namespace: string)
      modifies this
      ensures Extends(DeleteEffect(api, old(|calls|), pod, namespace))
    {
      var reply := Write(Call.DeletePod(pod, namespace));
      match reply
      case Ok(_) => Emit(Deleted(pod));
      case ApiError(_, reason) => Emit(DeleteFailed(reason));
    }

    /** Generate a patch, apply it, record the action; an exception from the generation escapes. */
    method PatchAndRecord(ctx: Context, request: Option<string>, limit: Option<string>,
                          podName: Option<string>, namespace: Option<string>, action: Action)
      returns (raised: Option<PyError>)
      requires Valid()
      modifies this
      ensures Valid()
      ensures var e := PatchStep(api, old(|calls|), ctx, request, limit, podName, namespace, [], action);
        Extends(e) && raised == e.raised
    {
      var generated := GeneratePatchFromPodJson(ctx.podJson, request, limit, podName, namespace);
      if generated.Raised? {
        return Some(generated.err);
      }
      DiagnoseAndFixPod(ctx.deployment, ctx.namespace, if generated.Built? then Some(generated.body) else None);
      Append(Acted(action));
      return None;
    }

    /** The body of the step loop for step `i`: look the step up and run its action. */
    method ExecuteStep(list: seq<string>, i: nat, ctx: Context, ghost n: nat) returns (raised: Option<PyError>)
      requires Valid() && i < |list| && RunSteps(StepFn(api, ctx), n, list, i).raised.None?
      requires |calls| == n + |RunSteps(StepFn(api, ctx), n, list, i).calls|
      modifies this
      ensures Valid()
      ensures var e := Added(StepFn(api, ctx), n, list, i + 1);
        Extends(e) && raised == e.raised
    {
      raised := None;
      var action := LookupAction(ctx.table, list[i]);
      if action.None? {
        Emit(GeneralStep(list[i]));
      } else {
        raised := Act(action.value, ctx);
      }
    }

    /** The `if`/`elif` chain of the step loop, for the action the step resolved to. */
    method Act(a: Action, ctx: Context) returns (raised: Option<PyError>)
      requires Valid()
      modifies this
      ensures Valid()
      ensures var e := ActionEffect(api, old(|calls|), a, ctx);
        Extends(e) && raised == e.raised
    {
      if a.AdjustMemoryLimits? || a.AdjustResourceLimits? || a.AdjustCpuLimits? || a.IncreaseMemoryLimits? {
        raised := PatchAct(a, ctx);
      } else {
        raised := OtherAct(a, ctx);
      }
    }

    /** The branches that generate and apply a memory patch. */
    method PatchAct(a: Action, ctx: Context) returns (raised: Option<PyError>)
      requires Valid()
      requires a.AdjustMemoryLimits? || a.AdjustResourceLimits? || a.AdjustCpuLimits? || a.IncreaseMemoryLimits?
      modifies this
      ensures Valid()
      ensures var e := ActionEffect(api, old(|calls|), a, ctx);
        Extends(e) && raised == e.raised
    {
      if a.AdjustMemoryLimits? || a.AdjustResourceLimits? {
        raised := PatchAndRecord(ctx, None, None, Some(ctx.podName), Some(ctx.namespace), a);
      } else if a.AdjustCpuLimits? {
        raised := PatchAndRecord(ctx, Some("512Mi"), Some("1Gi"), None, None, a);
      } else {
        Emit(IncreasingMemory);
        raised := IncreaseMemory(ctx);
      }
    }

    /** The other branches: logs, restart, scale, image fix and the advisory actions. */
    method OtherAct(a: Action, ctx: Context) returns (raised: Option<PyError>)
      requires Valid()
      requires !(a.AdjustMemoryLimits? || a.AdjustResourceLimits? || a.AdjustCpuLimits? || a.IncreaseMemoryLimits?)
      modifies this
      ensures Valid()
      ensures var e := ActionEffect(api, old(|calls|), a, ctx);
        Extends(e) && raised == e.raised
    {
      raised := None;
      if a.PrintLogs? {
        FetchLogs(ctx);
      } else if a.RestartContainer? {
        DeletePod(ctx.podName, ctx.namespace);
        Append(Acted(a));
      } else if a.ScaleDeployment? {
        ScaleDeployment(ctx.deployment, ctx.namespace, 3);
        Append(Acted(a));
      } else if a.FixImagePullError? {
        raised := FixImagePullError(ctx.jsonInput);
        if raised.None? {
          Append(Acted(a));
        }
      } else {
        // the six advisory actions: a message and a record
        Emit(Advice(a));
        Append(Acted(a));
      }
    }

    /** The print-logs action. */
    method FetchLogs(ctx: Context)
      requires Valid()
      modifies this
      ensures Valid() && Extends(LogsEffect(api, old(|calls|), ctx.podName, ctx.namespace))
    {
      var reply := ReadNamespacedPodLog(ctx.podName, ctx.namespace, true, 50);
      match reply
      case Ok(logs) =>
        Emit(RecentLogs);
        Emit(LogsShown(logs));
        Append(Acted(PrintLogs));
      case ApiError(_, reason) =>
        Emit(LogsFailed(reason));
        Append(LogsFetchFailed(reason));
    }

    /** The increase-memory action after its opening message. */
    method IncreaseMemory(ctx: Context) returns (raised: Option<PyError>)
      requires Valid()
      modifies this
      ensures Valid()
      ensures var e := PatchStep(api, old(|calls|), ctx, Some("512Mi"), Some("1Gi"), None, None, [],
                                 IncreaseMemoryLimits);
        Extends(e) && raised == e.raised
    {
      raised := PatchAndRecord(ctx, Some("512Mi"), Some("1Gi"), None, None, IncreaseMemoryLimits);
    }

    /** `solution_implementation`. */
    method SolutionImplementation(steps: Steps, deployment: string, namespace: string,
                                  podName: Option<string>, podJson: PodJson, jsonInput: Option<FixInput>)
      returns (raised: Option<PyError>)
      requires Valid()
      modifies this
      ensures Valid()
      ensures var e := Solve(api, old(|calls|), table, steps, deployment, namespace, podName, podJson, jsonInput);
        Extends(e) && raised == e.raised
    {
      if !Truthy(podName) {
        Emit(NoPod);
        Append(NoPodFound);
        return None;
      }
      raised := RunStepLoop(AsList(steps), Context(table, deployment, namespace, podName.value, podJson, jsonInput));
    }

    /** The `for step in solution_steps` loop; an exception ends it and escapes. */
    method RunStepLoop(list: seq<string>, ctx: Context) returns (raised: Option<PyError>)
      requires Valid()
      modifies this
      ensures Valid()
      ensures var e := RunSteps(StepFn(api, ctx), old(|calls|), list, |list|);
        Extends(e) && raised == e.raised
    {
      ghost var n := |calls|;
      ghost var start := State();
      for i := 0 to |list|
        invariant Valid()
        invariant RunSteps(StepFn(api, ctx), n, list, i).raised.None?
        invariant State() == After(start, RunSteps(StepFn(api, ctx), n, list, i))
      {
        raised := RunStep(list, i, ctx, n, start);
        if raised.Some? {
          RaiseStopsRun(StepFn(api, ctx), n, list, i + 1, |list|);
          return;
        }
      }
      raised := None;
    }

    /** Step `i` of the loop, once steps `0..i` have run from call number `n` without raising. */
    method RunStep(list: seq<string>, i: nat, ctx: Context, ghost n: nat, ghost start: Snapshot)
      returns (raised: Option<PyError>)
      requires Valid() && i < |list| && RunSteps(StepFn(api, ctx), n, list, i).raised.None?
      requires State() == After(start, RunSteps(StepFn(api, ctx), n, list, i)) && |start.calls| == n
      modifies this
      ensures Valid()
      ensures State() == After(start, RunSteps(StepFn(api, ctx), n, list, i + 1))
      ensures raised == RunSteps(StepFn(api, ctx), n, list, i + 1).raised
    {
      ghost var before := RunSteps(StepFn(api, ctx), n, list, i);
      ghost var step := Added(StepFn(api, ctx), n, list, i + 1);
      raised := ExecuteStep(list, i, ctx, n);
      AfterThen(start, before, step);
    }

    /**
     * `periodic_alert` (one tick, without the timer): a non-empty ledger is
     * composed into an alert body and emptied. `delivered` is whether the
     * e-mail went out; `send_alert_email` swallows a failure, so the ledger is
     * emptied either way and the records of an undelivered alert are lost.
     * An empty ledger is left alone.
     */
    method PeriodicAlert(delivered: bool)
      requires Valid()
      modifies this
      ensures Valid() && history == old(history)
      ensures calls == old(calls) && emitted == old(emitted)
      ensures failureDetails == []
      ensures old(failureDetails) != [] ==> flushed == old(flushed) + old(failureDetails)
      ensures old(failureDetails) != [] && delivered ==> alerts == old(alerts) + [Report(Records(old(failureDetails)))]
      ensures old(failureDetails) != [] && !delivered ==> alerts == old(alerts)
      ensures old(failureDetails) == [] ==> flushed == old(flushed) && alerts == old(alerts)
    {
      if failureDetails != [] {
        var body := AlertBody(Records(failureDetails));
        if delivered {
          alerts := alerts + [body];
        }
        flushed := flushed + failureDetails;
        failureDetails := [];
      }
    }
  }
}
