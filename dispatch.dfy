/**
 * The request dispatcher (serve): the HTTP entry point, reduced to the
 * decision it makes from the request's User-Agent, method and Content-Type
 * headers and the outcome of decoding its body as an admission review.
 * Reading the body and writing the reply are not part of the model: the body
 * arrives as the decode result (`None` for an empty or unparseable body), and
 * the reply is a status code with the response the written envelope carries.
 */
module Dispatch {
  import opened Wrappers
  import opened Tolerations
  import opened Mutation

  /** The admission envelope as decoded from the body: its request may be absent. */
  datatype AdmissionReview = AdmissionReview(request: Option<AdmissionRequest>)

  /** What the dispatcher looks at in an inbound HTTP request. */
  datatype HttpRequest = HttpRequest(
    userAgent: string,
    httpMethod: string,
    contentType: string,
    body: Option<AdmissionReview>)

  /** The status code written, and the response inside the envelope written with it, if any. */
  datatype HttpReply = HttpReply(status: int, response: Option<AdmissionResponse>)

  const StatusOK: int := 200
  const StatusBadRequest: int := 400

  /** The User-Agent of the kubelet's liveness and readiness probes. */
  const ProbeUserAgent: string := "Kubelet"

  const MethodPost: string := "POST"
  const JsonContentType: string := "application/json"

  /** The request is a kubelet probe, answered without looking at anything else. */
  predicate IsProbe(req: HttpRequest) {
    req.userAgent == ProbeUserAgent
  }

  /** The request is a POST of JSON whose body decodes to a review carrying a request. */
  predicate IsAdmission(req: HttpRequest) {
    && req.httpMethod == MethodPost
    && req.contentType == JsonContentType
    && req.body.Some?
    && req.body.value.request.Some?
  }

  /**
   * serve: a probe gets 200 and an empty body; a request that is not a POST,
   * not JSON, has an empty or unparseable body, or a review without a request
   * gets 400 and no envelope; any other request gets 200 and an envelope
   * carrying what `admit` answers for its admission request.
   */
  function Serve(req: HttpRequest, admit: AdmissionRequest -> AdmissionResponse): (r: HttpReply)
    ensures r.status == StatusOK || r.status == StatusBadRequest
    ensures r.status == StatusOK <==> IsProbe(req) || IsAdmission(req)
    ensures r.response.Some? <==> !IsProbe(req) && IsAdmission(req)
    ensures r.response.Some? ==> r.response.value == admit(req.body.value.request.value)
  {
    if IsProbe(req) then HttpReply(StatusOK, None)
    else if req.httpMethod != MethodPost then HttpReply(StatusBadRequest, None)
    else if req.contentType != JsonContentType then HttpReply(StatusBadRequest, None)
    else if req.body.None? then HttpReply(StatusBadRequest, None)
    else if req.body.value.request.None? then HttpReply(StatusBadRequest, None)
    else HttpReply(StatusOK, Some(admit(req.body.value.request.value)))
  }

  // ---- What the decision does not depend on ----

  /** A rejected or probed request never reaches the mutation function: any two give the same reply. */
  lemma ServeRejectsWithoutAdmitting(req: HttpRequest, admit1: AdmissionRequest -> AdmissionResponse,
                                     admit2: AdmissionRequest -> AdmissionResponse)
    requires IsProbe(req) || !IsAdmission(req)
    ensures Serve(req, admit1) == Serve(req, admit2)
    ensures Serve(req, admit1).response.None?
  {
  }

  /** The content type is checked before the body: a non-JSON request is refused whatever its body. */
  lemma ServeContentTypeBeforeBody(req: HttpRequest, body: Option<AdmissionReview>,
                                   admit: AdmissionRequest -> AdmissionResponse)
    requires !IsProbe(req) && req.contentType != JsonContentType
    ensures Serve(req, admit) == Serve(req.(body := body), admit) == HttpReply(StatusBadRequest, None)
  {
  }

  /** A probe is answered 200 with an empty body whatever its method, content type and body. */
  lemma ServeProbeIgnoresRest(req: HttpRequest, httpMethod: string, contentType: string,
                              body: Option<AdmissionReview>, admit: AdmissionRequest -> AdmissionResponse)
    requires IsProbe(req)
    ensures Serve(req.(httpMethod := httpMethod, contentType := contentType, body := body), admit)
         == HttpReply(StatusOK, None)
  {
  }

  // ---- The cases TestServe pins down ----

  /** The mutation function the tests plug in: mutatePod under the default configuration. */
  function TestAdmit(req: AdmissionRequest): AdmissionResponse {
    MutatePod(DefaultTolerations, req)
  }

  /** The review the tests send: a CREATE of a pod without tolerations. */
  const TestReview: AdmissionReview :=
    AdmissionReview(Some(AdmissionRequest(TestUid, Decoded("Pod", []))))

  /** Valid Request: 200, and the envelope's response is mutatePod's answer, byte for byte. */
  lemma {:induction false} ServeTestValidRequest()
    ensures Serve(HttpRequest("", "POST", "application/json", Some(TestReview)), TestAdmit)
         == HttpReply(200, Some(AdmissionResponse(
              TestUid, true,
              Some("[{\"op\":\"replace\",\"path\":\"/spec/tolerations\",\"value\":"
                 + ("[" + ("{\"key\":\"" + "cloud.google.com/alloydb-host" + "\",\"operator\":\"" + "Exists" + "\",\"effect\":\"" + "NoSchedule" + "\"}") + "]")
                 + "}]"),
              Some(JSONPatch), None)))
  {
    var req := HttpRequest("", "POST", "application/json", Some(TestReview));
    assert !IsProbe(req) && IsAdmission(req);
    assert TestAdmit(req.body.value.request.value)
        == MutatePod(DefaultTolerations, AdmissionRequest(TestUid, Decoded("Pod", [])));
    hide *;
    MutatePodTestNoTolerations();
  }

  /** Valid Request Invalid Content Type: 400 and no envelope. */
  lemma ServeTestInvalidContentType()
    ensures Serve(HttpRequest("", "POST", "text/plain", Some(TestReview)), TestAdmit)
         == HttpReply(400, None)
  {
  }

  /** Invalid JSON Request Body and Empty Request Body: the body does not decode, so 400. */
  lemma ServeTestUndecodableBody()
    ensures Serve(HttpRequest("", "POST", "application/json", None), TestAdmit)
         == HttpReply(400, None)
  {
  }

  /** Kubelet Probes: a GET without a body is answered 200 with an empty body. */
  lemma ServeTestKubeletProbe()
    ensures Serve(HttpRequest("Kubelet", "GET", "application/json", None), TestAdmit)
         == HttpReply(200, None)
  {
  }
}
