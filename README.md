# AlloyDB toleration webhook — a Dafny model

This project models the request path of a Kubernetes mutating admission
webhook. Under its default configuration, every pod the webhook admits is
given a patch that makes it tolerate the AlloyDB host taint
(`cloud.google.com/alloydb-host`, operator `Exists`, effect `NoSchedule`).
Three pieces of logic are modelled:

- **`serve`**, the HTTP handler (`dispatch.dfy`, module `Dispatch`).
  - A request whose User-Agent is the kubelet probe's is answered `200`
    with an empty body.
  - A request that is not a `POST`, is not `application/json`, has a body
    that does not decode, or holds a review without a request is answered
    `400` with no envelope.
  - Any other request is answered `200`. The envelope it writes carries what
    the plugged-in admission function returns for the request.
- **`mutatePod`**, the mutation decider (`mutation.dfy`, module `Mutation`).
  - An object that does not decode is denied, with the decoder's error as
    the reason.
  - An object of any kind but `Pod` is denied with the fixed message
    "Invalid Kind for the request, only pods are supported for mutation".
  - A pod is allowed. Its patch replaces its tolerations with its existing
    ones followed by the configured ones, with no deduplication, and has
    PatchType `JSONPatch`.
  - The request's UID is echoed in every case.
- **`constructPatch`**, the patch builder (`patch.dfy`, module `Patch`). It
  writes one JSON-Patch `replace` operation (section 4.3 of RFC 6902) on
  `/spec/tolerations`.
  - Its value is the tolerations in order. Each object has its fields in the
    order `key`, `operator`, `value`, `effect`.
  - Empty fields are omitted.
  - String literals are escaped as Go's `encoding/json` escapes them
    (`json_string.dfy`, module `JsonString`).

The rest of the model:

- `tolerations.dfy` (module `Tolerations`) defines the toleration type and
  the default configuration, `DefaultTolerations`. In the Go program this
  configuration is a package-level variable set once at start-up. Here it is
  a parameter of `MutatePod`.
- `wrappers.dfy` holds the `Option` type.

The patch builder's partner is a reader for the document it writes,
`Patch.ParsePatch`. `Patch.PatchRoundTrip` proves that the reader gives
back exactly the list the patch was built from. The decider's properties
are stated about the list read back from its patch:

- the existing tolerations come first, followed by the configured ones;
- the list has N + |config| entries;
- re-admitting the patched pod duplicates the configured entries.

What the patch does to a pod is stated with the Kubernetes toleration-matching
rule, `Tolerations.ToleratesTaint`:

- an unset effect matches every effect;
- an empty key matches every key;
- `Exists` matches any value, and `Equal` only the same value.

This rule belongs to the Kubernetes API (the `ToleratesTaint` method of
`corev1.Toleration`), which is not part of this model. The patch keeps every
taint the pod tolerated and adds those the configuration tolerates.

`Mutation.ApplyResponse` stands for the API server applying an allowed
response's patch. It is not part of the webhook. It applies the `replace`
leniently: the object gets the list read back from the patch whether or not it
had a `tolerations` field before. Section 4.3 of RFC 6902 requires the target
of a `replace` to exist, and a pod without tolerations has none, because the
field is `omitempty`. `Mutation.ApplyMutation` and
`Mutation.ReapplyDuplicates` are stated through it.

The dispatcher's properties are stated over every request and every
admission function. For each test case of the Go test file, a lemma
reproduces the expected reply or patch byte for byte.

Where the model goes beyond the test-visible text:

- Field omission follows the `omitempty` JSON tags of `corev1.Toleration`,
  so an empty `key` is omitted too. No test uses an empty key.
- Escaping follows `json.Marshal` with HTML escaping on, as in Go 1.22 and
  later:
  - `"` and `\` are escaped with a backslash;
  - `\n`, `\r`, `\t`, `\b` and `\f` get their short escapes;
  - other control characters, `<`, `>`, `&`, U+2028 and U+2029 become
    `\u` escapes with lower-case hex digits.
- The probe check is exact equality of the User-Agent header with
  `Kubelet`.
- The checks run in this order: probe, method, content type, body, request.

## Model

| member | source | states |
|---|---|---|
| Patch.ConstructPatch | handlers/pod_tolerations_handler_test.go:255-283 | The document opens with the `replace` operation on `/spec/tolerations` and ends with `}]`. What lies between is fixed by Patch.PatchRoundTrip and, for the test inputs, by the ConstructPatch* lemmas. |
| Patch.EncodeToleration | handlers/pod_tolerations_handler_test.go:263-270 | One toleration is a JSON object, opening with `{` and closing with `}`. Its members are fixed by Patch.ParseTolerationRoundTrip and, for the test inputs, by Patch.EncodeKeyOperatorValue and Patch.EncodeKeyOperatorEffect. |
| Patch.PatchRoundTrip | handlers/pod_tolerations_handler_test.go:263-270 | The patch document is one `replace` operation on `/spec/tolerations`. Reading its value back gives exactly the tolerations it was built from, in order. |
| Patch.ParseArrayRoundTrip | handlers/pod_tolerations_handler_test.go:217 | An encoded toleration array reads back as the same list and leaves the text after it untouched. |
| Patch.ParseMoreRoundTrip | handlers/pod_tolerations_handler_test.go:217 | The comma-separated entries after the first, and the closing bracket, read back as the same entries in the same order. |
| Patch.ParseTolerationRoundTrip | handlers/pod_tolerations_handler_test.go:263-270 | One encoded toleration object reads back as the same key, operator, value and effect. |
| Patch.ParseKeyRoundTrip | handlers/pod_tolerations_handler_test.go:265 | The `key` member is present exactly when the key is non-empty, and reads back as the key (an omitted key reads back as the empty key), provided the `operator` member follows. |
| Patch.ParseOperatorRoundTrip | handlers/pod_tolerations_handler_test.go:266 | The `operator` member is always present and reads back as the operator. |
| Patch.ParseValueRoundTrip | handlers/pod_tolerations_handler_test.go:267 | The `value` member is present exactly when the value is non-empty, and reads back as the value, provided the text after it does not start another `value` member. |
| Patch.ParseEffectRoundTrip | handlers/pod_tolerations_handler_test.go:292 | The `effect` member is present exactly when the effect is set, and reads back as the effect, provided the text after it does not start another `effect` member. |
| Patch.EncodeKeyOperatorValue | handlers/pod_tolerations_handler_test.go:270 | A toleration with a non-empty key, a non-empty value and no effect, where neither the key nor the value needs escaping, is written as `{"key":…,"operator":…,"value":…}`, with no `effect` member. |
| Patch.EncodeKeyOperatorEffect | handlers/pod_tolerations_handler_test.go:76 | A toleration with a non-empty key, an effect and no value, where the key needs no escaping, is written as `{"key":…,"operator":…,"effect":…}`, with no `value` member. |
| Patch.ConstructPatchKey1 | handlers/pod_tolerations_handler_test.go:262-270 | The key1/Equal/value1 toleration gives exactly the bytes TestConstructPatch expects. |
| Patch.ConstructPatchDefault | handlers/pod_tolerations_handler_test.go:197 | The default configuration alone gives exactly the single-entry patch bytes. |
| Patch.ConstructPatchKey1ThenDefault | handlers/pod_tolerations_handler_test.go:217 | key1 followed by the default toleration gives exactly the two-entry patch bytes. |
| JsonString.Escape | handlers/pod_tolerations_handler_test.go:270 | Each character is kept or replaced by an escape of at most six characters, so the body is between \|s\| and 6·\|s\| long. What it holds is fixed by JsonString.EscapePlain, JsonString.EscapeHtmlSafe and JsonString.QuoteRoundTrip. |
| JsonString.Quote | handlers/pod_tolerations_handler_test.go:270 | A string literal is the escaped text between two double quotes. JsonString.QuoteRoundTrip proves that it reads back as the string. |
| JsonString.QuoteRoundTrip | handlers/pod_tolerations_handler_test.go:270 | Every string, written as a JSON string literal, reads back as itself. |
| JsonString.QuotePlain | handlers/pod_tolerations_handler_test.go:270 | A string with no character that needs escaping is written verbatim between quotes. |
| JsonString.EscapeHtmlSafe | handlers/pod_tolerations_handler_test.go:270 | Escaped text contains no `<`, `>`, `&` or control character. |
| JsonString.ReadEscapedChar | handlers/pod_tolerations_handler_test.go:270 | Every character's escape is read back as that character. |
| JsonString.UnicodeEscapeRoundTrip | handlers/pod_tolerations_handler_test.go:270 | The `\uXXXX` escape of a code unit of the Basic Multilingual Plane (below 0x10000) reads back as that code unit. |
| Tolerations.DefaultToleratesHostTaint | handlers/pod_tolerations_handler_test.go:287-295 | The default configuration tolerates exactly the `NoSchedule` taints on the key `cloud.google.com/alloydb-host`, whatever their value. |
| Tolerations.ParseOperator | handlers/pod_tolerations_handler_test.go:266 | A text is accepted exactly when it is an operator's wire name, and the result has that name. |
| Tolerations.ParseEffect | handlers/pod_tolerations_handler_test.go:292 | A text is accepted exactly when it is an effect's wire name, and the result has that name. |
| Mutation.MutatePod | handlers/pod_tolerations_handler_test.go:184-241 | The UID is echoed. The request is allowed iff the object decodes as a Pod. Patch and PatchType `JSONPatch` are present iff allowed, and Result iff denied. A non-Pod kind gets the fixed message and a malformed object the decode error. An allowed patch is built from the existing tolerations followed by the configured ones. |
| Mutation.MutatePodAllowed | handlers/pod_tolerations_handler_test.go:204-223 | A pod's whole response: allowed, the same UID, the patch of its tolerations followed by the configured ones, PatchType `JSONPatch`, and no Result. |
| Mutation.MutatePodPatchValue | handlers/pod_tolerations_handler_test.go:205-222 | A pod's patch sets exactly its existing tolerations followed by the configured ones. |
| Mutation.MutatePodAppends | handlers/pod_tolerations_handler_test.go:205-222 | A pod with N tolerations is allowed with the same UID and PatchType `JSONPatch`. The patched list has N + \|config\| entries: the original N in their order, then the configuration in its order. |
| Mutation.MutatePodNoTolerations | handlers/pod_tolerations_handler_test.go:186-202 | A pod without tolerations is allowed with the same UID and PatchType `JSONPatch`. The patched list is exactly the configuration. |
| Mutation.MutateNonPod | handlers/pod_tolerations_handler_test.go:224-240 | Any kind but Pod gets Allowed=false, the same UID, the fixed message, and no Patch or PatchType. |
| Mutation.MutatePodTolerated | handlers/pod_tolerations_handler_test.go:204-223 | For an admitted pod, after the patch a taint is tolerated exactly when the pod or the configuration tolerated it. The patch extends what the pod tolerates and takes nothing away. |
| Mutation.AdmittedPodToleratesHostTaint | handlers/pod_tolerations_handler_test.go:184-223 | Under the default configuration, every admitted pod's patched list tolerates the AlloyDB host taint with effect `NoSchedule`, whatever the taint's value. |
| Mutation.ApplyMutation | handlers/pod_tolerations_handler_test.go:205-222 | After the patch is applied, the pod carries its tolerations followed by the configured ones. |
| Mutation.ReapplyDuplicates | handlers/pod_tolerations_handler_test.go:205-222 | Admitting the patched pod again appends the configuration a second time. A non-empty configuration therefore changes the patch: the decider is not idempotent. |
| Mutation.MutatePodTestNoTolerations | handlers/pod_tolerations_handler_test.go:184-203 | "Valid Pod No Tolerations": the exact response, patch bytes included. |
| Mutation.MutatePodTestExistingTolerations | handlers/pod_tolerations_handler_test.go:204-223 | "Pod With Existing Tolerations": the exact response, patch bytes included. |
| Mutation.MutatePodTestInvalidKind | handlers/pod_tolerations_handler_test.go:224-241 | "Invalid Kind": the exact denial. |
| Dispatch.Serve | handlers/pod_tolerations_handler_test.go:40-148 | The status is 200 or 400. It is 200 iff the request is a probe or a well-formed admission. An envelope is written iff the request is not a probe and is well-formed, and it carries exactly what the admission function returns for the request. |
| Dispatch.ServeRejectsWithoutAdmitting | handlers/pod_tolerations_handler_test.go:83-148 | A probe or a rejected request never reaches the admission function: the reply is the same whatever that function is, and no envelope is written. |
| Dispatch.ServeContentTypeBeforeBody | handlers/pod_tolerations_handler_test.go:83-117 | A non-JSON request that is not a probe is answered 400 whatever its body. |
| Dispatch.ServeProbeIgnoresRest | handlers/pod_tolerations_handler_test.go:138-148 | A probe is answered 200 with an empty body, whatever its method, content type and body. |
| Dispatch.ServeTestValidRequest | handlers/pod_tolerations_handler_test.go:40-81 | "Valid Request": status 200, and the envelope's response is mutatePod's answer with the exact patch bytes (the comparison is at lines 165-172). |
| Dispatch.ServeTestInvalidContentType | handlers/pod_tolerations_handler_test.go:83-117 | "Valid Request Invalid Content Type": 400 and no envelope. |
| Dispatch.ServeTestUndecodableBody | handlers/pod_tolerations_handler_test.go:118-137 | "Invalid JSON Request Body" and "Empty Request Body": 400 and no envelope. |
| Dispatch.ServeTestKubeletProbe | handlers/pod_tolerations_handler_test.go:138-148 | "Kubelet Probes": a GET without a body gets 200 and an empty body. |

## Left out

- Reading the request body, setting headers, the response recorder and route registration (`Routes`) are not modelled. The model keeps only the status and the response the envelope carries.
- JSON decoding of the admission review and of the embedded object is abstract:
  - the body arrives as an `Option` (`None` for an empty or unparseable body);
  - the object arrives as `Malformed(error)` or as a kind with the pod's tolerations.
- Dispatch.Serve: the `500` reply on a failure to write the response is not modelled. That failure is an I/O error.
- Dispatch.Serve: the outbound envelope's fields other than `Response` are not modelled, and neither is the `Content-Type` header of the reply.
- Mutation.MutatePod: the source passes it the whole review. The model passes only the request, which serve has already checked is present. What mutatePod does with a review that has no request is not modelled.
- Mutation.MutatePod: the exact wording of the reason given for an undecodable object is not visible in the source. The model uses the decoder's error text as it is.
- Patch.ConstructPatch: the Go function also returns an error. That error is not modelled, because marshalling a toleration list cannot fail.
- Patch.ConstructPatch: a pod with no tolerations under an empty configuration would have a Go nil slice, which Go writes as `null`. The model writes `[]`.
- Tolerations.Toleration: `tolerationSeconds` and the unset (empty) operator are not modelled, so the model cannot represent a pod whose existing tolerations use them. The webhook copies a pod's existing tolerations into the patch unchanged. For such a pod, Go would write a `"tolerationSeconds":N` member after `effect` and leave `operator` out. The model's encoder and reader cover only tolerations without these fields.
- JsonString.ReadChar: the reader rejects a `\u` escape of a surrogate half instead of pairing it. The writer never produces one, because it writes characters outside ASCII as they are.
- Concurrency of the HTTP server, TLS, logging and start-up are not modelled. The default configuration is a constant passed as a parameter rather than a global that is assigned once.
