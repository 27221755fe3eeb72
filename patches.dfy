/**
 * The patch bodies of the remediation engine: the memory-resources patch built
 * from a pod's JSON, the image/secrets patch and the scale patch.
 */
module Patches {
  import opened Wrappers
  import opened Kube

  const DefaultRequest: string := "256Mi"
  const DefaultLimit: string := "512Mi"

  /** The memory request a container states, or the default. */
  function CurrentRequest(c: Container): string {
    c.memoryRequest.GetOr(DefaultRequest)
  }

  /** The memory limit a container states, or the default. */
  function CurrentLimit(c: Container): string {
    c.memoryLimit.GetOr(DefaultLimit)
  }

  function Requests(cs: seq<Container>): (r: seq<string>)
    ensures |r| == |cs|
  {
    seq(|cs|, i requires 0 <= i < |cs| => CurrentRequest(cs[i]))
  }

  function Limits(cs: seq<Container>): (r: seq<string>)
    ensures |r| == |cs|
  {
    seq(|cs|, i requires 0 <= i < |cs| => CurrentLimit(cs[i]))
  }

  /**
   * The value of the variable `memory_request` (or `memory_limit`) after the
   * patch loop has visited the containers whose current values are `currents`:
   * each visit rebinds it to `it or current`, starting from the caller's value.
   */
  function Carry(given: Option<string>, currents: seq<string>): string
    requires |currents| > 0
    decreases |currents|
  {
    var before := if |currents| == 1 then given else Some(Carry(given, currents[..|currents| - 1]));
    Or(before, currents[|currents| - 1])
  }

  /** The `containers` list of the memory patch, as the loop builds it. */
  function MemoryPatches(cs: seq<Container>, request: Option<string>, limit: Option<string>): (ps: seq<MemoryPatch>)
    ensures |ps| == |cs|
    ensures forall k :: 0 <= k < |cs| ==> ps[k].name == cs[k].name
  {
    seq(|cs|, k requires 0 <= k < |cs| =>
      MemoryPatch(cs[k].name, Carry(request, Requests(cs)[..k + 1]), Carry(limit, Limits(cs)[..k + 1])))
  }

  /**
   * The loop of `generate_patch_from_pod_json` that builds `patch_containers`,
   * rebinding `memory_request` and `memory_limit` at each container.
   */
  method BuildPatchContainers(cs: seq<Container>, memoryRequest: Option<string>, memoryLimit: Option<string>)
    returns (ps: seq<MemoryPatch>)
    ensures ps == MemoryPatches(cs, memoryRequest, memoryLimit)
    ensures |ps| == |cs| && forall k :: 0 <= k < |cs| ==> ps[k].name == cs[k].name
  {
    var request, limit := memoryRequest, memoryLimit;
    ps := [];
    for i := 0 to |cs|
      invariant ps == MemoryPatches(cs[..i], memoryRequest, memoryLimit)
      invariant i == 0 ==> request == memoryRequest && limit == memoryLimit
      invariant i > 0 ==> request == Some(Carry(memoryRequest, Requests(cs)[..i]))
      invariant i > 0 ==> limit == Some(Carry(memoryLimit, Limits(cs)[..i]))
    {
      var c := cs[i];
      var currentRequest := CurrentRequest(c);
      var currentLimit := CurrentLimit(c);
      request := Some(Or(request, currentRequest));
      limit := Some(Or(limit, currentLimit));
      assert Requests(cs)[..i + 1][..i] == Requests(cs)[..i];
      assert Limits(cs)[..i + 1][..i] == Limits(cs)[..i];
      ps := ps + [MemoryPatch(c.name, request.value, limit.value)];
      PrefixPatches(cs, i + 1, memoryRequest, memoryLimit);
    }
    assert cs[..|cs|] == cs;
  }

  lemma PrefixPatches(cs: seq<Container>, n: nat, request: Option<string>, limit: Option<string>)
    requires 0 < n <= |cs|
    ensures MemoryPatches(cs[..n], request, limit)
         == MemoryPatches(cs[..n - 1], request, limit)
          + [MemoryPatch(cs[n - 1].name, Carry(request, Requests(cs)[..n]), Carry(limit, Limits(cs)[..n]))]
  {
    var lhs := MemoryPatches(cs[..n], request, limit);
    var rhs := MemoryPatches(cs[..n - 1], request, limit)
             + [MemoryPatch(cs[n - 1].name, Carry(request, Requests(cs)[..n]), Carry(limit, Limits(cs)[..n]))];
    forall k | 0 <= k < n
      ensures lhs[k] == rhs[k]
    {
      PatchOfPrefix(cs, n, k, request, limit);
      if k < n - 1 {
        PatchOfPrefix(cs, n - 1, k, request, limit);
      }
    }
  }

  /** The patch of container `k` depends only on the containers up to `k`. */
  lemma PatchOfPrefix(cs: seq<Container>, n: nat, k: nat, request: Option<string>, limit: Option<string>)
    requires k < n <= |cs|
    ensures MemoryPatches(cs[..n], request, limit)[k]
         == MemoryPatch(cs[k].name, Carry(request, Requests(cs)[..k + 1]), Carry(limit, Limits(cs)[..k + 1]))
  {
    assert Requests(cs[..n])[..k + 1] == Requests(cs)[..k + 1];
    assert Limits(cs[..n])[..k + 1] == Limits(cs)[..k + 1];
  }

  /** A value the caller supplies is kept whatever the containers state. */
  lemma {:induction false} CarryKeepsGiven(given: Option<string>, currents: seq<string>)
    requires |currents| > 0 && Truthy(given)
    ensures Carry(given, currents) == given.value
    decreases |currents|
  {
    if |currents| > 1 {
      CarryKeepsGiven(given, currents[..|currents| - 1]);
    }
  }

  /** The rebound value is the caller's truthy value or the current value of a visited container. */
  lemma {:induction false} CarryComesFrom(given: Option<string>, currents: seq<string>)
    requires |currents| > 0
    ensures (Truthy(given) && Carry(given, currents) == given.value) || Carry(given, currents) in currents
    decreases |currents|
  {
    var last := currents[|currents| - 1];
    if |currents| > 1 {
      var before := currents[..|currents| - 1];
      CarryComesFrom(given, before);
      assert Carry(given, before) in before ==> Carry(given, before) in currents;
    }
    assert last in currents;
  }

  /** Without a caller value, the first container's non-empty value is kept for all later ones. */
  lemma {:induction false} CarryKeepsFirst(given: Option<string>, currents: seq<string>)
    requires |currents| > 0 && !Truthy(given) && currents[0] != ""
    ensures Carry(given, currents) == currents[0]
    decreases |currents|
  {
    if |currents| > 1 {
      CarryKeepsFirst(given, currents[..|currents| - 1]);
    }
  }

  /**
   * With caller-supplied values (the CPU and increase-memory actions pass
   * "512Mi" and "1Gi"), every container gets exactly those values.
   */
  lemma SuppliedValuesOverride(cs: seq<Container>, request: Option<string>, limit: Option<string>)
    requires Truthy(request) && Truthy(limit)
    ensures forall k :: 0 <= k < |cs| ==>
      MemoryPatches(cs, request, limit)[k] == MemoryPatch(cs[k].name, request.value, limit.value)
  {
    forall k | 0 <= k < |cs|
      ensures MemoryPatches(cs, request, limit)[k] == MemoryPatch(cs[k].name, request.value, limit.value)
    {
      CarryKeepsGiven(request, Requests(cs)[..k + 1]);
      CarryKeepsGiven(limit, Limits(cs)[..k + 1]);
    }
  }

  /**
   * Without caller values, every container gets the values resolved for the
   * FIRST container (its own, or the defaults "256Mi"/"512Mi"), because the loop
   * rebinds `memory_request`/`memory_limit`; later containers' own values are
   * ignored whenever the first one's are non-empty.
   */
  lemma FirstContainerValuesApplyToAll(cs: seq<Container>, request: Option<string>, limit: Option<string>)
    requires |cs| > 0 && !Truthy(request) && !Truthy(limit)
    requires CurrentRequest(cs[0]) != "" && CurrentLimit(cs[0]) != ""
    ensures forall k :: 0 <= k < |cs| ==>
      MemoryPatches(cs, request, limit)[k] == MemoryPatch(cs[k].name, CurrentRequest(cs[0]), CurrentLimit(cs[0]))
  {
    forall k | 0 <= k < |cs|
      ensures MemoryPatches(cs, request, limit)[k] == MemoryPatch(cs[k].name, CurrentRequest(cs[0]), CurrentLimit(cs[0]))
    {
      CarryKeepsFirst(request, Requests(cs)[..k + 1]);
      CarryKeepsFirst(limit, Limits(cs)[..k + 1]);
    }
  }

  /** A first container stating no memory values makes every container get "256Mi"/"512Mi". */
  lemma MissingValuesDefault(cs: seq<Container>, request: Option<string>, limit: Option<string>)
    requires |cs| > 0 && !Truthy(request) && !Truthy(limit)
    requires cs[0].memoryRequest.None? && cs[0].memoryLimit.None?
    ensures forall k :: 0 <= k < |cs| ==>
      MemoryPatches(cs, request, limit)[k] == MemoryPatch(cs[k].name, "256Mi", "512Mi")
  {
    FirstContainerValuesApplyToAll(cs, request, limit);
  }

  /** `{"name": s}` for each secret, in order. */
  function SecretRefs(secrets: seq<string>): (r: seq<SecretRef>)
    ensures |r| == |secrets|
    ensures forall i :: 0 <= i < |secrets| ==> r[i] == SecretRef(secrets[i])
  {
    seq(|secrets|, i requires 0 <= i < |secrets| => SecretRef(secrets[i]))
  }

  /**
   * The image fix patch: one container, named as the deployment's first
   * container, with `correct_image`; `imagePullSecrets` lists the supplied
   * secrets in order, `[]` when the key is absent.
   */
  function ImageFixPatch(containerName: string, input: FixInput): (p: Patch)
    ensures p.ImagePatch? && p.container == containerName && p.image == input.correctImage
    ensures |p.imagePullSecrets| == |input.imagePullSecrets.GetOr([])|
    ensures forall i :: 0 <= i < |p.imagePullSecrets| ==>
      p.imagePullSecrets[i].name == input.imagePullSecrets.value[i]
  {
    ImagePatch(containerName, input.correctImage, SecretRefs(input.imagePullSecrets.GetOr([])))
  }

  /** `{"spec": {"replicas": replicas}}`. */
  function ScaleBody(replicas: int): Patch {
    ScalePatch(replicas)
  }
}
