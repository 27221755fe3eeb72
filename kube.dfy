/**
 * The slice of the Kubernetes object model the remediation engine touches,
 * the calls it makes on the cluster, and the cluster itself as an oracle.
 */
module Kube {
  import opened Wrappers

  /**
   * One entry of a pod's `spec.containers`. A memory request or limit is `None`
   * when the pod states none: the `resources`, `requests`/`limits` or `memory`
   * key is missing, or the `requests`/`limits` dictionary is empty.
   */
  datatype Container = Container(name: string, memoryRequest: Option<string>, memoryLimit: Option<string>)

  /** A pod's `spec`; `containers` is `None` when the key is missing. */
  datatype PodSpec = PodSpec(containers: Option<seq<Container>>)

  /**
   * A pod as a JSON dictionary. `Null` is Python's `None`. `Dict(spec, otherKeys)`
   * has a `spec` entry when `spec` is `Some`, and `otherKeys` tells whether it
   * holds any key besides `spec`.
   */
  datatype PodJson = Null | Dict(spec: Option<PodSpec>, otherKeys: bool)

  /** Python truthiness: `None` and `{}` are falsy. */
  predicate Falsy(p: PodJson) {
    p.Null? || (p.spec.None? && !p.otherKeys)
  }

  /** The empty dictionary `{}`. */
  const EmptyPodJson: PodJson := Dict(None, false)

  /** One container of the memory-resources patch. */
  datatype MemoryPatch = MemoryPatch(name: string, request: string, limit: string)

  /** One `{"name": secret}` entry of `imagePullSecrets`. */
  datatype SecretRef = SecretRef(name: string)

  /** The three patch bodies the engine sends. */
  datatype Patch =
    | ResourcePatch(containers: seq<MemoryPatch>)
    | ImagePatch(container: string, image: string, imagePullSecrets: seq<SecretRef>)
    | ScalePatch(replicas: int)

  /** The `json_input` dictionary of the image fix; `imagePullSecrets` is `None` when the key is absent. */
  datatype FixInput = FixInput(deploymentName: string, namespace: string, correctImage: string,
                               imagePullSecrets: Option<seq<string>>)

  /** A pod as listed by the cluster: its name and its `status.phase`. */
  datatype Pod = Pod(name: string, phase: string)

  /** A call on the cluster's API, in the form the engine issues it. */
  datatype Call =
    | ReadPod(pod: string, namespace: string)
    | ReadDeployment(deployment: string, namespace: string)
    | PatchDeployment(deployment: string, namespace: string, body: Patch)
    | PatchDeploymentScale(deployment: string, namespace: string, body: Patch)
    | DeletePod(pod: string, namespace: string)
    | ReadPodLog(pod: string, namespace: string, previous: bool, tailLines: int)

  /** The calls that change cluster state. */
  predicate IsMutation(c: Call) {
    c.PatchDeployment? || c.PatchDeploymentScale? || c.DeletePod?
  }

  predicate NoMutation(calls: seq<Call>) {
    forall i :: 0 <= i < |calls| ==> !IsMutation(calls[i])
  }

  /** A reply of the API: a value, or an `ApiException` with its HTTP status and its text `str(e)`. */
  datatype Reply<T> = Ok(value: T) | ApiError(status: int, reason: string)

  /**
   * The cluster as an oracle. Each function gives the reply to the call with the
   * given sequence number (the number of calls issued before it), so every
   * sequence of replies is possible. A deployment is read as the names of its
   * template's containers; writes (patch, scale, delete) reply with no value.
   */
  datatype Api = Api(
    readPod: nat -> Reply<PodJson>,
    readDeployment: nat -> Reply<seq<string>>,
    readPodLog: nat -> Reply<string>,
    write: nat -> Reply<()>)
}
