/**
 * The admission handler ServerNamespaceBackup and its request checks
 * (namespace-webhook/main.go:50-169, 279-303). JSON decoding, the cluster
 * configuration, the client constructor and the clock are inputs; the dynamic
 * client is a recorder of the calls made through it.
 */
module Webhook {
  import opened Wrappers
  import opened Labels
  import opened Timestamp
  import opened Velero
  import opened Decision

  const JsonContentType: string := "application/json"

  /**
   * The admission request: `newObject` and `oldObject` are the results of
   * unmarshalling the raw Object and OldObject fields into a Namespace (None
   * when unmarshalling fails).
   */
  datatype AdmissionRequest = AdmissionRequest(
    uid: string,
    operation: Operation,
    newObject: Option<Namespace>,
    oldObject: Option<Namespace>)

  /** The review envelope; a missing `request` section is None. */
  datatype AdmissionReview = AdmissionReview(request: Option<AdmissionRequest>)

  /**
   * An incoming HTTP request: the Content-Type header value ("" when absent),
   * the body, and the result of unmarshalling the body into an AdmissionReview.
   */
  datatype HttpRequest = HttpRequest(contentType: string, body: seq<bv8>, decoded: Option<AdmissionReview>)

  /** Whatever a backend call answers; the handler only logs it. */
  datatype Reply = Succeeded | Failed(reason: string)

  /**
   * The environment of one call: whether the in-cluster configuration and the
   * dynamic client can be obtained, the clock, and the backend's answers.
   */
  datatype Cluster = Cluster(inClusterConfig: bool, clientBuilt: bool, now: DateTime, replies: Action -> Reply)

  datatype RequestFault =
    | WrongContentType
    | EmptyBody
    | MalformedReview
    | MissingRequest
    | UndecodableObject
    | UndecodableOldObject

  datatype ClusterFault = NoInClusterConfig | ClientNotBuilt

  datatype AdmissionResponse = AdmissionResponse(apiVersion: string, kind: string, uid: string, allowed: bool)

  /**
   * What the handler writes: a 400 or a 500 error, nothing at all (Go then
   * sends an empty 200), or an admission review.
   */
  datatype Outcome =
    | BadRequest(requestFault: RequestFault)
    | ServerError(clusterFault: ClusterFault)
    | NoResponse
    | Allowed(response: AdmissionResponse)

  /** The HTTP status of each outcome; a handler that writes nothing leaves Go's implicit 200. */
  function StatusCode(out: Outcome): int {
    match out
    case BadRequest(_) => 400
    case ServerError(_) => 500
    case _ => 200
  }

  /** parseRequest: content type, then a non-empty body, then a decodable review, then a request section. */
  function ParseRequest(req: HttpRequest): (r: Result<AdmissionRequest, RequestFault>)
    ensures r.Success?
            <==> (req.contentType == JsonContentType && |req.body| > 0
                  && req.decoded.Some? && req.decoded.value.request.Some?)
    ensures r.Success? ==> req.decoded == Some(AdmissionReview(Some(r.value)))
    ensures r == Failure(WrongContentType) <==> req.contentType != JsonContentType
    ensures r == Failure(EmptyBody) <==> req.contentType == JsonContentType && |req.body| == 0
    ensures r == Failure(MalformedReview)
            <==> (req.contentType == JsonContentType && |req.body| > 0 && req.decoded.None?)
    ensures r.Failure? ==> r.error in {WrongContentType, EmptyBody, MalformedReview, MissingRequest}
  {
    if req.contentType != JsonContentType then Failure(WrongContentType)
    else if |req.body| == 0 then Failure(EmptyBody)
    else if req.decoded.None? then Failure(MalformedReview)
    else if req.decoded.value.request.None? then Failure(MissingRequest)
    else Success(req.decoded.value.request.value)
  }

  /** The operation is one of the three handled and every object it needs decoded. */
  predicate Decodes(r: AdmissionRequest) {
    && r.operation != Connect
    && (r.operation in {Create, Update} ==> r.newObject.Some?)
    && (r.operation in {Update, Delete} ==> r.oldObject.Some?)
  }

  /** The new namespace after decoding: the zero value for Delete. */
  function NewSnapshot(r: AdmissionRequest): Namespace
    requires Decodes(r)
  {
    if r.operation in {Create, Update} then r.newObject.value else Unset
  }

  /** The old namespace after decoding: the zero value for Create. */
  function OldSnapshot(r: AdmissionRequest): Namespace
    requires Decodes(r)
  {
    if r.operation in {Update, Delete} then r.oldObject.value else Unset
  }

  /** The dynamic client, seen as the sequence of calls made through it. */
  class ResourceClient {
    const replies: Action -> Reply
    var issued: seq<Action>

    constructor (replies: Action -> Reply)
      ensures this.replies == replies && issued == []
    {
      this.replies := replies;
      issued := [];
    }

    method Get(resource: GroupVersionResource, namespace: string, name: string) returns (reply: Reply)
      modifies this
      ensures issued == old(issued) + [GetObject(resource, namespace, name)]
      ensures reply == replies(GetObject(resource, namespace, name))
    {
      issued := issued + [GetObject(resource, namespace, name)];
      reply := replies(GetObject(resource, namespace, name));
    }

    method Create(resource: GroupVersionResource, namespace: string, manifest: Manifest) returns (reply: Reply)
      modifies this
      ensures issued == old(issued) + [CreateObject(resource, namespace, manifest)]
      ensures reply == replies(CreateObject(resource, namespace, manifest))
    {
      issued := issued + [CreateObject(resource, namespace, manifest)];
      reply := replies(CreateObject(resource, namespace, manifest));
    }

    method Delete(resource: GroupVersionResource, namespace: string, name: string) returns (reply: Reply)
      modifies this
      ensures issued == old(issued) + [DeleteObject(resource, namespace, name)]
      ensures reply == replies(DeleteObject(resource, namespace, name))
    {
      issued := issued + [DeleteObject(resource, namespace, name)];
      reply := replies(DeleteObject(resource, namespace, name));
    }
  }

  /** createVeleroSchedule: the existence check's answer is only logged, and the create is always issued. */
  method CreateVeleroSchedule(client: ResourceClient, cfg: Config, namespaceName: string)
    modifies client
    ensures client.issued == old(client.issued) + ScheduleCalls(cfg, namespaceName)
  {
    var scheduleName := ScheduleName(namespaceName);
    var existing := client.Get(ScheduleResource, cfg.veleroNamespace, scheduleName);
    var created := client.Create(ScheduleResource, cfg.veleroNamespace, ScheduleManifest(cfg, namespaceName));
  }

  /** createVeleroBackup: one create of an instant backup stamped with the current time. */
  method CreateVeleroBackup(client: ResourceClient, cfg: Config, namespaceName: string, now: DateTime)
    modifies client
    ensures client.issued == old(client.issued) + BackupCalls(cfg, namespaceName, now)
  {
    var created := client.Create(BackupResource, cfg.veleroNamespace, BackupManifest(cfg, namespaceName, now));
  }

  /** deleteVeleroSchedule: one delete of the namespace's schedule; its answer is only logged. */
  method DeleteVeleroSchedule(client: ResourceClient, cfg: Config, namespaceName: string)
    modifies client
    ensures client.issued == old(client.issued) + DeleteCalls(cfg, namespaceName)
  {
    var deleted := client.Delete(ScheduleResource, cfg.veleroNamespace, ScheduleName(namespaceName));
  }

  /**
   * ServerNamespaceBackup: parse, decode what the operation needs, build the
   * client, act on the labels, and answer "allowed" with the request's UID.
   * `trace` is every call made through the client. Neither result depends on
   * the backend's replies.
   */
  method ServeNamespaceBackup(cfg: Config, req: HttpRequest, cluster: Cluster)
    returns (out: Outcome, trace: seq<Action>)
    ensures ParseRequest(req).Failure? ==> out == BadRequest(ParseRequest(req).error)
    ensures ParseRequest(req).Success? ==>
      var r := ParseRequest(req).value;
      && (r.operation == Connect ==> out == NoResponse)
      && (r.operation in {Create, Update} && r.newObject.None? ==> out == BadRequest(UndecodableObject))
      && (r.operation == Update && r.newObject.Some? && r.oldObject.None? ==> out == BadRequest(UndecodableOldObject))
      && (r.operation == Delete && r.oldObject.None? ==> out == BadRequest(UndecodableOldObject))
      && (Decodes(r) && !cluster.inClusterConfig ==> out == ServerError(NoInClusterConfig))
      && (Decodes(r) && cluster.inClusterConfig && !cluster.clientBuilt ==> out == ServerError(ClientNotBuilt))
      && (Decodes(r) && cluster.inClusterConfig && cluster.clientBuilt ==>
            && out == Allowed(AdmissionResponse("admission.k8s.io/v1", "AdmissionReview", r.uid, true))
            && trace == Plan(cfg, r.operation, OldSnapshot(r), NewSnapshot(r), cluster.now))
    ensures !out.Allowed? ==> trace == []
    ensures StatusCode(out) == 400
            <==> (ParseRequest(req).Failure?
                  || (ParseRequest(req).value.operation != Connect && !Decodes(ParseRequest(req).value)))
    ensures StatusCode(out) == 500
            <==> (ParseRequest(req).Success? && Decodes(ParseRequest(req).value)
                  && !(cluster.inClusterConfig && cluster.clientBuilt))
  {
    trace := [];
    var parsed := ParseRequest(req);
    if parsed.Failure? {
      return BadRequest(parsed.error), trace;
    }
    var request := parsed.value;

    var oldNamespace := Unset;
    var namespace := Unset;
    match request.operation {
      case Create =>
        if request.newObject.None? {
          return BadRequest(UndecodableObject), trace;
        }
        namespace := request.newObject.value;
      case Update =>
        if request.newObject.None? {
          return BadRequest(UndecodableObject), trace;
        }
        namespace := request.newObject.value;
        if request.oldObject.None? {
          return BadRequest(UndecodableOldObject), trace;
        }
        oldNamespace := request.oldObject.value;
      case Delete =>
        if request.oldObject.None? {
          return BadRequest(UndecodableOldObject), trace;
        }
        oldNamespace := request.oldObject.value;
      case Connect =>
        return NoResponse, trace;
    }

    if !cluster.inClusterConfig {
      return ServerError(NoInClusterConfig), trace;
    }
    if !cluster.clientBuilt {
      return ServerError(ClientNotBuilt), trace;
    }
    var client := new ResourceClient(cluster.replies);

    match request.operation {
      case Create =>
        if IsTarget(namespace.labels) {
          CreateVeleroSchedule(client, cfg, namespace.name);
          CreateVeleroBackup(client, cfg, namespace.name, cluster.now);
        }
      case Update =>
        if IsTarget(namespace.labels) && OldSideUnset(oldNamespace.labels) {
          CreateVeleroSchedule(client, cfg, namespace.name);
          CreateVeleroBackup(client, cfg, namespace.name, cluster.now);
        } else if !IsTarget(namespace.labels) && IsTarget(oldNamespace.labels) {
          DeleteVeleroSchedule(client, cfg, namespace.name);
        }
      case Delete =>
        if IsTarget(oldNamespace.labels) {
          DeleteVeleroSchedule(client, cfg, oldNamespace.name);
        }
      case Connect =>
    }

    out := Allowed(AdmissionResponse("admission.k8s.io/v1", "AdmissionReview", request.uid, true));
    trace := client.issued;
  }

  const Now: DateTime := DateTime(2024, 5, 1, 12, 30, 0)
  const FailingCluster: Cluster := Cluster(true, true, Now, _ => Failed("unavailable"))
  const Acme: LabelMap := map[TargetLabel := "acme", RuntimeLabel := TargetRuntime]
  const AllowedU: Outcome := Allowed(AdmissionResponse("admission.k8s.io/v1", "AdmissionReview", "u", true))

  /** A well-formed request carrying the given admission request. */
  function Review(r: AdmissionRequest): HttpRequest {
    HttpRequest(JsonContentType, [0x7b, 0x7d], Some(AdmissionReview(Some(r))))
  }

  /** Typical admissions through the handler, with a backend that fails every call. */
  method CreateScenarios()
  {
    assert IsTarget(Acme);
    var out, trace := ServeNamespaceBackup(Defaults, Review(AdmissionRequest("u", Create, Some(Namespace("shop", Acme)), None)), FailingCluster);
    assert out == AllowedU && trace == ActivationTrace(Defaults, "shop", Now);

    out, trace := ServeNamespaceBackup(Defaults, Review(AdmissionRequest("u", Create, Some(Namespace("shop", map[])), None)), FailingCluster);
    assert out == AllowedU && trace == [];
  }

  method ActivateScenario()
  {
    assert IsTarget(Acme);
    var out, trace := ServeNamespaceBackup(Defaults, Review(AdmissionRequest("u", Update, Some(Namespace("shop", Acme)), Some(Namespace("shop", map[])))), FailingCluster);
    assert out == AllowedU && trace == ActivationTrace(Defaults, "shop", Now);
  }

  method DeactivateScenario()
  {
    assert IsTarget(Acme);
    assert ScheduleName("shop") == "shop-backup";
    var out, trace := ServeNamespaceBackup(Defaults, Review(AdmissionRequest("u", Update, Some(Namespace("shop", map[])), Some(Namespace("shop", Acme)))), FailingCluster);
    assert out == AllowedU && trace == [DeleteObject(ScheduleResource, "velero", "shop-backup")];
  }

  method WeakGuardScenario()
  {
    var other := Acme[RuntimeLabel := "other"];
    assert IsTarget(Acme) && !OldSideUnset(other);
    var out, trace := ServeNamespaceBackup(Defaults, Review(AdmissionRequest("u", Update, Some(Namespace("shop", Acme)), Some(Namespace("shop", other)))), FailingCluster);
    assert out == AllowedU && trace == [];
  }

  method DeleteAndMalformedScenarios()
  {
    assert IsTarget(Acme);
    assert ScheduleName("shop") == "shop-backup";
    var out, trace := ServeNamespaceBackup(Defaults, Review(AdmissionRequest("u", Delete, None, Some(Namespace("shop", Acme)))), FailingCluster);
    assert out == AllowedU && trace == [DeleteObject(ScheduleResource, "velero", "shop-backup")];

    out, trace := ServeNamespaceBackup(Defaults, HttpRequest("text/plain", [0x7b], None), FailingCluster);
    assert StatusCode(out) == 400 && trace == [];
  }
}
