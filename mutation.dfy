/**
 * The mutation decider (mutatePod): it reads the kind of the object under
 * admission, denies anything that is not a Pod, and otherwise answers with a
 * patch that replaces the pod's tolerations by its existing ones followed by
 * the configured ones.
 *
 * The embedded object arrives already decoded as far as the decider looks at
 * it: either the decode failed (with the decoder's error text), or a kind and
 * the pod's current tolerations.  The configured tolerations are a parameter.
 */
module Mutation {
  import opened Wrappers
  import opened Tolerations
  import opened Patch

  /** The only patch type the webhook ever produces. */
  datatype PatchType = JSONPatch

  /** The human-readable reason of a denial. */
  datatype Status = Status(message: string)

  /** The decision sent back to the API server. */
  datatype AdmissionResponse = AdmissionResponse(
    uid: string,
    allowed: bool,
    patch: Option<string>,
    patchType: Option<PatchType>,
    result: Option<Status>)

  /** The raw object of the request, decoded as far as `kind` and the pod's tolerations. */
  datatype EmbeddedObject =
    | Malformed(error: string)
    | Decoded(kind: string, tolerations: seq<Toleration>)

  /** The part of an admission request the decider reads. */
  datatype AdmissionRequest = AdmissionRequest(uid: string, obj: EmbeddedObject)

  /** The one kind the webhook mutates. */
  const PodKind: string := "Pod"

  /** The fixed reason given for every object that is not a Pod. */
  const InvalidKindMessage: string := "Invalid Kind for the request, only pods are supported for mutation"

  /** A refusal: not allowed, no patch, and the reason. */
  function Deny(uid: string, message: string): AdmissionResponse {
    AdmissionResponse(uid, false, None, None, Some(Status(message)))
  }

  /** The object is a pod, so it is eligible for mutation. */
  predicate IsPod(obj: EmbeddedObject) {
    obj.Decoded? && obj.kind == PodKind
  }

  /**
   * mutatePod: denies a malformed object with the decoder's error and any
   * other kind with the fixed message; a pod gets the configured tolerations
   * appended, unconditionally and in order, to the ones it already has.
   */
  function MutatePod(config: seq<Toleration>, req: AdmissionRequest): (r: AdmissionResponse)
    ensures r.uid == req.uid
    ensures r.allowed <==> IsPod(req.obj)
    ensures r.patch.Some? <==> r.allowed
    ensures r.patchType == (if r.allowed then Some(JSONPatch) else None)
    ensures r.result.Some? <==> !r.allowed
    ensures req.obj.Malformed? ==> r.result == Some(Status(req.obj.error))
    ensures req.obj.Decoded? && req.obj.kind != PodKind ==> r.result == Some(Status(InvalidKindMessage))
    ensures r.allowed ==> r.patch == Some(ConstructPatch(req.obj.tolerations + config))
  {
    match req.obj
    case Malformed(error) => Deny(req.uid, error)
    case Decoded(kind, existing) =>
      if kind != PodKind then Deny(req.uid, InvalidKindMessage)
      else AdmissionResponse(req.uid, true, Some(ConstructPatch(existing + config)), Some(JSONPatch), None)
  }

  /**
   * An allowed pod's whole response: its UID, the patch of its tolerations
   * followed by the configured ones, and PatchType `JSONPatch`. This follows
   * from MutatePod's contract; it is stated as one equation so that the
   * test-case lemmas below can substitute the patch text without unfolding
   * MutatePod.
   */
  lemma MutatePodAllowed(config: seq<Toleration>, req: AdmissionRequest)
    requires IsPod(req.obj)
    ensures MutatePod(config, req)
         == AdmissionResponse(req.uid, true, Some(ConstructPatch(req.obj.tolerations + config)), Some(JSONPatch), None)
  {
  }

  // ---- What the patch of an allowed pod carries ----

  /** The tolerations a patch sets, read back from the response. */
  function PatchedTolerations(r: AdmissionResponse): Option<seq<Toleration>> {
    var text :- r.patch;
    ParsePatch(text)
  }

  /** An allowed pod's patch sets exactly its existing tolerations followed by the configured ones. */
  lemma {:induction false} MutatePodPatchValue(config: seq<Toleration>, req: AdmissionRequest)
    requires IsPod(req.obj)
    ensures PatchedTolerations(MutatePod(config, req)) == Some(req.obj.tolerations + config)
  {
    PatchRoundTrip(req.obj.tolerations + config);
  }

  /**
   * A pod with N tolerations gets N + |config| of them back: its own, in their
   * order, then the configured ones, in theirs — nothing removed, reordered or
   * deduplicated.
   */
  lemma {:induction false} MutatePodAppends(config: seq<Toleration>, req: AdmissionRequest)
    requires IsPod(req.obj)
    ensures var r := MutatePod(config, req);
      && r.allowed && r.uid == req.uid && r.patchType == Some(JSONPatch) && r.result.None?
      && PatchedTolerations(r).Some?
      && var ts := PatchedTolerations(r).value;
      && |ts| == |req.obj.tolerations| + |config|
      && ts[..|req.obj.tolerations|] == req.obj.tolerations
      && ts[|req.obj.tolerations|..] == config
  {
    MutatePodPatchValue(config, req);
    var existing := req.obj.tolerations;
    assert (existing + config)[..|existing|] == existing;
    assert (existing + config)[|existing|..] == config;
  }

  /** A pod without tolerations gets exactly the configured list. */
  lemma {:induction false} MutatePodNoTolerations(config: seq<Toleration>, uid: string)
    ensures var r := MutatePod(config, AdmissionRequest(uid, Decoded(PodKind, [])));
      && r.allowed && r.uid == uid && r.patchType == Some(JSONPatch) && r.result.None?
      && PatchedTolerations(r) == Some(config)
  {
    MutatePodPatchValue(config, AdmissionRequest(uid, Decoded(PodKind, [])));
    assert [] + config == config;
  }

  /**
   * A taint is tolerated after the patch exactly when the pod or the
   * configuration tolerated it: the patch adds the configuration's reach and
   * takes nothing away.
   */
  lemma {:induction false} MutatePodTolerated(config: seq<Toleration>, req: AdmissionRequest, taint: Taint)
    requires IsPod(req.obj)
    ensures PatchedTolerations(MutatePod(config, req)).Some?
    ensures Tolerated(PatchedTolerations(MutatePod(config, req)).value, taint)
        <==> Tolerated(req.obj.tolerations, taint) || Tolerated(config, taint)
  {
    MutatePodPatchValue(config, req);
    hide MutatePod, PatchedTolerations;
    ToleratedAppend(req.obj.tolerations, config, taint);
  }

  /** Under the default configuration, every admitted pod tolerates the AlloyDB host taint, whatever its value. */
  lemma {:induction false} AdmittedPodToleratesHostTaint(req: AdmissionRequest, value: string)
    requires IsPod(req.obj)
    ensures PatchedTolerations(MutatePod(DefaultTolerations, req)).Some?
    ensures Tolerated(PatchedTolerations(MutatePod(DefaultTolerations, req)).value, Taint(AlloyDbHostKey, value, NoSchedule))
  {
    var taint := Taint(AlloyDbHostKey, value, NoSchedule);
    DefaultToleratesHostTaint(taint);
    MutatePodTolerated(DefaultTolerations, req, taint);
  }

  /** Any kind other than Pod is refused with the fixed message and no patch. */
  lemma MutateNonPod(config: seq<Toleration>, uid: string, kind: string, existing: seq<Toleration>)
    requires kind != PodKind
    ensures MutatePod(config, AdmissionRequest(uid, Decoded(kind, existing)))
         == AdmissionResponse(uid, false, None, None, Some(Status(InvalidKindMessage)))
  {
  }

  // ---- Applying the patch, and applying the decider again ----

  /**
   * The object after the API server applies an allowed response's patch to
   * it. The replace is applied leniently: the tolerations are set whether or
   * not the object had them before.
   */
  function ApplyResponse(obj: EmbeddedObject, r: AdmissionResponse): (o: Option<EmbeddedObject>)
    requires obj.Decoded?
    ensures o.Some? ==> o.value.Decoded? && o.value.kind == obj.kind
  {
    var ts :- PatchedTolerations(r);
    Some(Decoded(obj.kind, ts))
  }

  /** Applying the decider's patch leaves the pod with its tolerations followed by the configured ones. */
  lemma {:induction false} ApplyMutation(config: seq<Toleration>, req: AdmissionRequest)
    requires IsPod(req.obj)
    ensures ApplyResponse(req.obj, MutatePod(config, req))
         == Some(Decoded(PodKind, req.obj.tolerations + config))
  {
    MutatePodPatchValue(config, req);
  }

  /**
   * The decider is not idempotent: admitting the already-patched pod again
   * appends the configured tolerations a second time, so a non-empty
   * configuration yields a different patch.
   */
  lemma {:induction false} ReapplyDuplicates(config: seq<Toleration>, req: AdmissionRequest)
    requires IsPod(req.obj)
    ensures var patched := ApplyResponse(req.obj, MutatePod(config, req));
      && patched.Some?
      && var again := MutatePod(config, AdmissionRequest(req.uid, patched.value));
      && PatchedTolerations(again) == Some(req.obj.tolerations + config + config)
      && (config != [] ==> again.patch != MutatePod(config, req).patch)
  {
    ApplyMutation(config, req);
    var existing := req.obj.tolerations;
    var req2 := AdmissionRequest(req.uid, Decoded(PodKind, existing + config));
    MutatePodPatchValue(config, req2);
    MutatePodPatchValue(config, req);
    if config != [] {
      assert |existing + config + config| != |existing + config|;
    }
  }

  // ---- The cases TestMutatePod pins down ----

  /** The correlation identifier used throughout the tests. */
  const TestUid: string := "70a7fc1a-a84b-4e9d-9e6e-500f45a4697b"

  /** A pod without tolerations, under the default configuration. */
  lemma {:induction false} MutatePodTestNoTolerations()
    ensures MutatePod(DefaultTolerations, AdmissionRequest(TestUid, Decoded("Pod", [])))
         == AdmissionResponse(
              TestUid, true,
              Some("[{\"op\":\"replace\",\"path\":\"/spec/tolerations\",\"value\":"
                 + ("[" + ("{\"key\":\"" + "cloud.google.com/alloydb-host" + "\",\"operator\":\"" + "Exists" + "\",\"effect\":\"" + "NoSchedule" + "\"}") + "]")
                 + "}]"),
              Some(JSONPatch), None)
  {
    var req := AdmissionRequest(TestUid, Decoded("Pod", []));
    assert IsPod(req.obj) && req.obj.tolerations + DefaultTolerations == DefaultTolerations;
    MutatePodAllowed(DefaultTolerations, req);
    hide *;
    ConstructPatchDefault();
  }

  /** A pod that already tolerates key1, under the default configuration. */
  lemma {:induction false} MutatePodTestExistingTolerations()
    ensures MutatePod(DefaultTolerations, AdmissionRequest(TestUid, Decoded("Pod", [Key1Equal])))
         == AdmissionResponse(
              TestUid, true,
              Some("[{\"op\":\"replace\",\"path\":\"/spec/tolerations\",\"value\":"
                 + ("[" + ("{\"key\":\"" + "key1" + "\",\"operator\":\"" + "Equal" + "\",\"value\":\"" + "value1" + "\"}")
                 + ("," + ("{\"key\":\"" + "cloud.google.com/alloydb-host" + "\",\"operator\":\"" + "Exists" + "\",\"effect\":\"" + "NoSchedule" + "\"}") + "]"))
                 + "}]"),
              Some(JSONPatch), None)
  {
    var req := AdmissionRequest(TestUid, Decoded("Pod", [Key1Equal]));
    assert IsPod(req.obj) && req.obj.tolerations == [Key1Equal];
    MutatePodAllowed(DefaultTolerations, req);
    hide *;
    ConstructPatchKey1ThenDefault();
  }

  /** An object of kind InvalidKind. */
  lemma MutatePodTestInvalidKind()
    ensures MutatePod(DefaultTolerations, AdmissionRequest(TestUid, Decoded("InvalidKind", [])))
         == AdmissionResponse(TestUid, false, None, None,
              Some(Status("Invalid Kind for the request, only pods are supported for mutation")))
  {
    MutateNonPod(DefaultTolerations, TestUid, "InvalidKind", []);
  }
}
