/** Tenant isolation on Kubernetes (app/core/kubernetes_client.py): idempotent
    creation and deletion of namespaces, resource quotas, network policies and
    ingresses, each deciding on the API's status code (404: absent, 409:
    already exists), and the per-user namespace set-up that chains three of them.

    The API server is a fake: a snapshot of the objects it holds and a fixed
    set of calls that fail with a given status code. Each API call and each
    client operation is specified by a function over the snapshot; the
    Cluster and KubernetesClient classes are proved to behave exactly so. */
module Kubernetes {
  import opened Wrappers
  import opened Text

  /** The API calls the client makes. */
  datatype ApiCall =
    | ReadNamespaceCall
    | CreateNamespaceCall
    | DeleteNamespaceCall
    | CreateQuotaCall
    | CreatePolicyCall
    | CreateIngressCall
    | DeleteIngressCall

  /** A namespaced object's address. */
  datatype ObjectKey = ObjectKey(namespace: string, name: string)

  datatype Quota = Quota(hard: map<string, string>)

  datatype PolicyPort = PolicyPort(protocol: string, port: int)

  /** An egress rule; `to` lists the peers, empty meaning any destination. */
  datatype EgressRule = EgressRule(to: seq<string>, ports: seq<PolicyPort>)

  datatype NetworkPolicy = NetworkPolicy(podSelector: map<string, string>, policyTypes: seq<string>, egress: seq<EgressRule>)

  datatype Ingress = Ingress(
    ingressClass: string,
    host: string,
    path: string,
    pathType: string,
    serviceName: string,
    servicePort: int,
    annotations: map<string, string>)

  /** The objects the API server holds; namespaces map to their labels. */
  datatype ClusterState = ClusterState(
    namespaces: map<string, map<string, string>>,
    quotas: map<ObjectKey, Quota>,
    policies: map<ObjectKey, NetworkPolicy>,
    ingresses: map<ObjectKey, Ingress>)

  /** What the API server keeps true: every namespaced object lives in a namespace that exists. */
  predicate Consistent(s: ClusterState)
  {
    && (forall k :: k in s.quotas ==> k.namespace in s.namespaces)
    && (forall k :: k in s.policies ==> k.namespace in s.namespaces)
    && (forall k :: k in s.ingresses ==> k.namespace in s.namespaces)
  }

  /** An API answer: success, or the status code of an ApiException. */
  type ApiResult = Result<(), int>

  // The API server

  function ApiReadNamespace(s: ClusterState, faults: map<ApiCall, int>, name: string): ApiResult
  {
    if ReadNamespaceCall in faults then Failure(faults[ReadNamespaceCall])
    else if name in s.namespaces then Success(())
    else Failure(404)
  }

  function ApiCreateNamespace(s: ClusterState, faults: map<ApiCall, int>, name: string, labels: map<string, string>)
    : (ApiResult, ClusterState)
  {
    if CreateNamespaceCall in faults then (Failure(faults[CreateNamespaceCall]), s)
    else if name in s.namespaces then (Failure(409), s)
    else (Success(()), s.(namespaces := s.namespaces[name := labels]))
  }

  /** Deleting a namespace deletes everything in it. */
  function ApiDeleteNamespace(s: ClusterState, faults: map<ApiCall, int>, name: string): (ApiResult, ClusterState)
  {
    if DeleteNamespaceCall in faults then (Failure(faults[DeleteNamespaceCall]), s)
    else if name !in s.namespaces then (Failure(404), s)
    else (Success(()), ClusterState(
      s.namespaces - {name},
      map k | k in s.quotas && k.namespace != name :: s.quotas[k],
      map k | k in s.policies && k.namespace != name :: s.policies[k],
      map k | k in s.ingresses && k.namespace != name :: s.ingresses[k]))
  }

  function ApiCreateQuota(s: ClusterState, faults: map<ApiCall, int>, key: ObjectKey, quota: Quota): (ApiResult, ClusterState)
  {
    if CreateQuotaCall in faults then (Failure(faults[CreateQuotaCall]), s)
    else if key.namespace !in s.namespaces then (Failure(404), s)
    else if key in s.quotas then (Failure(409), s)
    else (Success(()), s.(quotas := s.quotas[key := quota]))
  }

  function ApiCreatePolicy(s: ClusterState, faults: map<ApiCall, int>, key: ObjectKey, policy: NetworkPolicy): (ApiResult, ClusterState)
  {
    if CreatePolicyCall in faults then (Failure(faults[CreatePolicyCall]), s)
    else if key.namespace !in s.namespaces then (Failure(404), s)
    else if key in s.policies then (Failure(409), s)
    else (Success(()), s.(policies := s.policies[key := policy]))
  }

  function ApiCreateIngress(s: ClusterState, faults: map<ApiCall, int>, key: ObjectKey, ingress: Ingress): (ApiResult, ClusterState)
  {
    if CreateIngressCall in faults then (Failure(faults[CreateIngressCall]), s)
    else if key.namespace !in s.namespaces then (Failure(404), s)
    else if key in s.ingresses then (Failure(409), s)
    else (Success(()), s.(ingresses := s.ingresses[key := ingress]))
  }

  function ApiDeleteIngress(s: ClusterState, faults: map<ApiCall, int>, key: ObjectKey): (ApiResult, ClusterState)
  {
    if DeleteIngressCall in faults then (Failure(faults[DeleteIngressCall]), s)
    else if key !in s.ingresses then (Failure(404), s)
    else (Success(()), s.(ingresses := s.ingresses - {key}))
  }

  // The client's decisions

  /** An answer that counts as success: success itself, or the one tolerated status. */
  function Tolerate(r: ApiResult, tolerated: int): Outcome<int>
  {
    if r.Success? || r.error == tolerated then Pass else Fail(r.error)
  }

  /** namespace_exists: a read that succeeds means yes, 404 means no, anything else is raised. */
  function NamespaceExistsSpec(s: ClusterState, faults: map<ApiCall, int>, name: string): Result<bool, int>
  {
    match ApiReadNamespace(s, faults, name)
    case Success(_) => Success(true)
    case Failure(code) => if code == 404 then Success(false) else Failure(code)
  }

  /** create_namespace: nothing to do when the namespace exists; 409 on create is success. */
  function CreateNamespaceSpec(s: ClusterState, faults: map<ApiCall, int>, name: string, labels: map<string, string>)
    : (Outcome<int>, ClusterState)
  {
    match NamespaceExistsSpec(s, faults, name)
    case Failure(code) => (Fail(code), s)
    case Success(exists_) =>
      if exists_ then (Pass, s)
      else
        var (r, s') := ApiCreateNamespace(s, faults, name, labels);
        (Tolerate(r, 409), s')
  }

  const QuotaName := "user-resource-quota"
  const DefaultCpuLimit := "2"
  const DefaultMemoryLimit := "4Gi"
  const DefaultPodsLimit := 5

  /** The hard limits: cpu and memory both as request and as limit, and the pod count. */
  function QuotaFor(cpuLimit: string, memoryLimit: string, podsLimit: int): Quota
  {
    Quota(map[
      "requests.cpu" := cpuLimit,
      "limits.cpu" := cpuLimit,
      "requests.memory" := memoryLimit,
      "limits.memory" := memoryLimit,
      "pods" := IntToString(podsLimit)])
  }

  function CreateQuotaSpec(s: ClusterState, faults: map<ApiCall, int>, namespace: string,
                           cpuLimit: string, memoryLimit: string, podsLimit: int): (Outcome<int>, ClusterState)
  {
    var (r, s') := ApiCreateQuota(s, faults, ObjectKey(namespace, QuotaName), QuotaFor(cpuLimit, memoryLimit, podsLimit));
    (Tolerate(r, 409), s')
  }

  const PolicyName := "deny-all-egress-allow-minio-pypi"
  const DefaultMinioPort := 9000

  /** The storage host: the endpoint's text before its first ':'. The client
      computes it but the policy it builds does not use it. */
  function MinioHost(endpoint: string): string
  {
    if ':' in endpoint then BeforeFirst(endpoint, ':') else endpoint
  }

  /** Every pod, egress only: DNS over UDP and TCP, the storage port, and HTTPS, to any destination. */
  function PolicyFor(minioPort: int): NetworkPolicy
  {
    NetworkPolicy(map[], ["Egress"], [
      EgressRule([], [PolicyPort("UDP", 53), PolicyPort("TCP", 53)]),
      EgressRule([], [PolicyPort("TCP", minioPort)]),
      EgressRule([], [PolicyPort("TCP", 443)])])
  }

  function CreatePolicySpec(s: ClusterState, faults: map<ApiCall, int>, namespace: string,
                            minioEndpoint: string, minioPort: int): (Outcome<int>, ClusterState)
  {
    var (r, s') := ApiCreatePolicy(s, faults, ObjectKey(namespace, PolicyName), PolicyFor(minioPort));
    (Tolerate(r, 409), s')
  }

  function UserNamespace(userId: int): string
  {
    "user-" + IntToString(userId)
  }

  function UserLabels(userId: int): map<string, string>
  {
    map["kubeserve.io/user-id" := IntToString(userId), "kubeserve.io/managed-by" := "kubeserve"]
  }

  /** setup_user_namespace: namespace, then quota, then policy, stopping at the
      first failure; the endpoint defaults to the configured MINIO_ENDPOINT. */
  function SetupSpec(s: ClusterState, faults: map<ApiCall, int>, userId: int,
                     minioEndpoint: Option<string>, settingsEndpoint: string): (Result<string, int>, ClusterState)
  {
    var namespace := UserNamespace(userId);
    var endpoint := OrDefault(minioEndpoint, settingsEndpoint);
    var (a, s1) := CreateNamespaceSpec(s, faults, namespace, UserLabels(userId));
    if a.Fail? then (Failure(a.error), s1)
    else
      var (b, s2) := CreateQuotaSpec(s1, faults, namespace, DefaultCpuLimit, DefaultMemoryLimit, DefaultPodsLimit);
      if b.Fail? then (Failure(b.error), s2)
      else
        var (c, s3) := CreatePolicySpec(s2, faults, namespace, endpoint, DefaultMinioPort);
        if c.Fail? then (Failure(c.error), s3)
        else (Success(namespace), s3)
  }

  /** delete_namespace: 404 is success. */
  function DeleteNamespaceSpec(s: ClusterState, faults: map<ApiCall, int>, name: string): (Outcome<int>, ClusterState)
  {
    var (r, s') := ApiDeleteNamespace(s, faults, name);
    (Tolerate(r, 404), s')
  }

  const DefaultIngressHost := "localhost"
  const DefaultIngressPath := "/api/v1/predict"
  const DefaultIngressClass := "nginx"

  function IngressFor(serviceName: string, servicePort: int, host: string, path: string,
                      ingressClass: string, annotations: map<string, string>): Ingress
  {
    Ingress(ingressClass, host, path, "Prefix", serviceName, servicePort, annotations)
  }

  /** create_ingress: on creation and on 409 alike, the URL `http://{host}{path}`. */
  function CreateIngressSpec(s: ClusterState, faults: map<ApiCall, int>, namespace: string, name: string,
                             serviceName: string, servicePort: int, host: string, path: string,
                             ingressClass: string, annotations: map<string, string>): (Result<string, int>, ClusterState)
  {
    var (r, s') := ApiCreateIngress(s, faults, ObjectKey(namespace, name),
                                    IngressFor(serviceName, servicePort, host, path, ingressClass, annotations));
    if r.Success? || r.error == 409 then (Success("http://" + host + path), s')
    else (Failure(r.error), s')
  }

  /** delete_ingress: 404 is success. */
  function DeleteIngressSpec(s: ClusterState, faults: map<ApiCall, int>, namespace: string, name: string): (Outcome<int>, ClusterState)
  {
    var (r, s') := ApiDeleteIngress(s, faults, ObjectKey(namespace, name));
    (Tolerate(r, 404), s')
  }

  // Properties

  /** namespace_exists answers from the read: true when it succeeds, false on
      404, and any other status is raised. */
  lemma NamespaceExistsOutcome(s: ClusterState, faults: map<ApiCall, int>, name: string)
    ensures ReadNamespaceCall !in faults ==> NamespaceExistsSpec(s, faults, name) == Success(name in s.namespaces)
    ensures ReadNamespaceCall in faults && faults[ReadNamespaceCall] == 404 ==> NamespaceExistsSpec(s, faults, name) == Success(false)
    ensures ReadNamespaceCall in faults && faults[ReadNamespaceCall] != 404 ==>
      NamespaceExistsSpec(s, faults, name) == Failure(faults[ReadNamespaceCall])
  {
  }

  /** create_namespace leaves an existing namespace alone (no create is
      attempted, so even a failing create does not matter), tolerates 409, and
      raises any other status without changing anything. */
  lemma CreateNamespaceOutcome(s: ClusterState, faults: map<ApiCall, int>, name: string, labels: map<string, string>)
    ensures var (r, s') := CreateNamespaceSpec(s, faults, name, labels);
      && (ReadNamespaceCall !in faults && name in s.namespaces ==> r == Pass && s' == s)
      && (ReadNamespaceCall !in faults && CreateNamespaceCall !in faults && name !in s.namespaces ==>
            r == Pass && s' == s.(namespaces := s.namespaces[name := labels]))
      && (ReadNamespaceCall !in faults && CreateNamespaceCall in faults && name !in s.namespaces ==>
            (r == Pass <==> faults[CreateNamespaceCall] == 409) && s' == s)
      && (r.Fail? ==> s' == s)
      && (r.Fail? && ReadNamespaceCall !in faults ==> r.error != 409)
  {
  }

  /** Each set-up step writes only its own kind of object, and a step that
      fails writes nothing. */
  lemma StepFrames(s: ClusterState, faults: map<ApiCall, int>, namespace: string, labels: map<string, string>,
                   cpu: string, memory: string, pods: int, endpoint: string, port: int)
    ensures var (r, s') := CreateNamespaceSpec(s, faults, namespace, labels);
      s'.quotas == s.quotas && s'.policies == s.policies && s'.ingresses == s.ingresses && (r.Fail? ==> s' == s)
    ensures var (r, s') := CreateQuotaSpec(s, faults, namespace, cpu, memory, pods);
      s'.namespaces == s.namespaces && s'.policies == s.policies && s'.ingresses == s.ingresses && (r.Fail? ==> s' == s)
    ensures var (r, s') := CreatePolicySpec(s, faults, namespace, endpoint, port);
      s'.namespaces == s.namespaces && s'.quotas == s.quotas && s'.ingresses == s.ingresses && (r.Fail? ==> s' == s)
  {
  }

  /** The quota sets cpu and memory as both request and limit and the pod count
      as text; an existing quota is left as it was. */
  lemma QuotaOutcome(s: ClusterState, faults: map<ApiCall, int>, namespace: string, cpu: string, memory: string, pods: int)
    requires CreateQuotaCall !in faults && namespace in s.namespaces
    ensures var (r, s') := CreateQuotaSpec(s, faults, namespace, cpu, memory, pods);
      var key := ObjectKey(namespace, "user-resource-quota");
      && r == Pass
      && key in s'.quotas
      && (key !in s.quotas ==>
            && s'.quotas[key].hard.Keys == {"requests.cpu", "limits.cpu", "requests.memory", "limits.memory", "pods"}
            && s'.quotas[key].hard["requests.cpu"] == cpu && s'.quotas[key].hard["limits.cpu"] == cpu
            && s'.quotas[key].hard["requests.memory"] == memory && s'.quotas[key].hard["limits.memory"] == memory
            && s'.quotas[key].hard["pods"] == IntToString(pods))
      && (key in s.quotas ==> s' == s)
  {
  }

  /** The policy applies to every pod, restricts egress only, and allows exactly
      UDP and TCP 53, TCP on the storage port and TCP 443, to any destination.
      The storage host is the endpoint up to its first ':'. */
  lemma PolicyShape(minioEndpoint: string, minioPort: int)
    ensures var p := PolicyFor(minioPort);
      && p.podSelector == map[]
      && p.policyTypes == ["Egress"]
      && |p.egress| == 3
      && (forall i :: 0 <= i < |p.egress| ==> p.egress[i].to == [])
      && (set i, j | 0 <= i < |p.egress| && 0 <= j < |p.egress[i].ports| :: p.egress[i].ports[j])
           == {PolicyPort("UDP", 53), PolicyPort("TCP", 53), PolicyPort("TCP", minioPort), PolicyPort("TCP", 443)}
    ensures ':' !in MinioHost(minioEndpoint)
    ensures MinioHost(minioEndpoint) == minioEndpoint[..|MinioHost(minioEndpoint)|]
    ensures ':' in minioEndpoint ==> minioEndpoint[|MinioHost(minioEndpoint)|] == ':'
    ensures ':' !in minioEndpoint ==> MinioHost(minioEndpoint) == minioEndpoint
  {
    var p := PolicyFor(minioPort);
    var ports := set i, j | 0 <= i < |p.egress| && 0 <= j < |p.egress[i].ports| :: p.egress[i].ports[j];
    assert p.egress[0].ports[0] in ports && p.egress[0].ports[1] in ports;
    assert p.egress[1].ports[0] in ports && p.egress[2].ports[0] in ports;
  }

  /** With an API that answers normally, setup_user_namespace returns `user-{id}`
      and leaves the namespace (labelled if it is new), its quota and its policy
      in place, touching no other namespace and no ingress. */
  lemma SetupOutcome(s: ClusterState, userId: int, minioEndpoint: Option<string>, settingsEndpoint: string)
    ensures var (r, s') := SetupSpec(s, map[], userId, minioEndpoint, settingsEndpoint);
      var ns := UserNamespace(userId);
      && r == Success(ns)
      && ns in s'.namespaces
      && (ns !in s.namespaces ==> s'.namespaces[ns] == UserLabels(userId))
      && (forall n :: n in s.namespaces ==> n in s'.namespaces && s'.namespaces[n] == s.namespaces[n])
      && s'.namespaces.Keys == s.namespaces.Keys + {ns}
      && ObjectKey(ns, QuotaName) in s'.quotas
      && ObjectKey(ns, PolicyName) in s'.policies
      && (ObjectKey(ns, QuotaName) !in s.quotas ==> s'.quotas[ObjectKey(ns, QuotaName)] == QuotaFor("2", "4Gi", 5))
      && (ObjectKey(ns, PolicyName) !in s.policies ==> s'.policies[ObjectKey(ns, PolicyName)] == PolicyFor(9000))
      && s'.ingresses == s.ingresses
  {
    var ns := UserNamespace(userId);
    var endpoint := OrDefault(minioEndpoint, settingsEndpoint);
    var (a, s1) := CreateNamespaceSpec(s, map[], ns, UserLabels(userId));
    CreateNamespaceOutcome(s, map[], ns, UserLabels(userId));
    StepFrames(s, map[], ns, UserLabels(userId), DefaultCpuLimit, DefaultMemoryLimit, DefaultPodsLimit, endpoint, DefaultMinioPort);
    assert a == Pass && ns in s1.namespaces;
    assert s1.namespaces.Keys == s.namespaces.Keys + {ns};
    var (b, s2) := CreateQuotaSpec(s1, map[], ns, DefaultCpuLimit, DefaultMemoryLimit, DefaultPodsLimit);
    StepFrames(s1, map[], ns, UserLabels(userId), DefaultCpuLimit, DefaultMemoryLimit, DefaultPodsLimit, endpoint, DefaultMinioPort);
    assert b == Pass && ObjectKey(ns, QuotaName) in s2.quotas;
    var (c, s3) := CreatePolicySpec(s2, map[], ns, endpoint, DefaultMinioPort);
    StepFrames(s2, map[], ns, UserLabels(userId), DefaultCpuLimit, DefaultMemoryLimit, DefaultPodsLimit, endpoint, DefaultMinioPort);
    assert c == Pass && ObjectKey(ns, PolicyName) in s3.policies;
    assert SetupSpec(s, map[], userId, minioEndpoint, settingsEndpoint) == (Success(ns), s3);
  }

  /** Running setup_user_namespace again changes nothing and answers the same. */
  lemma {:induction false} SetupIdempotent(s: ClusterState, userId: int, minioEndpoint: Option<string>, settingsEndpoint: string)
    ensures var (r1, s1) := SetupSpec(s, map[], userId, minioEndpoint, settingsEndpoint);
      SetupSpec(s1, map[], userId, minioEndpoint, settingsEndpoint) == (r1, s1)
  {
    var (r1, s1) := SetupSpec(s, map[], userId, minioEndpoint, settingsEndpoint);
    SetupOutcome(s, userId, minioEndpoint, settingsEndpoint);
    var ns := UserNamespace(userId);
    assert ns in s1.namespaces;
    assert ObjectKey(ns, QuotaName) in s1.quotas && ObjectKey(ns, PolicyName) in s1.policies;
  }

  /** The steps run in order and stop at the first failure: a failed set-up
      never adds a policy, and one that fails on the namespace adds nothing. */
  lemma SetupStopsAtFailure(s: ClusterState, faults: map<ApiCall, int>, userId: int, minioEndpoint: Option<string>, settingsEndpoint: string)
    ensures var (r, s') := SetupSpec(s, faults, userId, minioEndpoint, settingsEndpoint);
      && (r.Failure? ==> s'.policies == s.policies && s'.ingresses == s.ingresses)
      && (CreateNamespaceSpec(s, faults, UserNamespace(userId), UserLabels(userId)).0.Fail? ==> r.Failure? && s' == s)
      && (r.Success? ==> r.value == UserNamespace(userId))
  {
    var ns := UserNamespace(userId);
    var endpoint := OrDefault(minioEndpoint, settingsEndpoint);
    var (a, s1) := CreateNamespaceSpec(s, faults, ns, UserLabels(userId));
    StepFrames(s, faults, ns, UserLabels(userId), DefaultCpuLimit, DefaultMemoryLimit, DefaultPodsLimit, endpoint, DefaultMinioPort);
    if a.Pass? {
      var (b, s2) := CreateQuotaSpec(s1, faults, ns, DefaultCpuLimit, DefaultMemoryLimit, DefaultPodsLimit);
      StepFrames(s1, faults, ns, UserLabels(userId), DefaultCpuLimit, DefaultMemoryLimit, DefaultPodsLimit, endpoint, DefaultMinioPort);
      if b.Pass? {
        StepFrames(s2, faults, ns, UserLabels(userId), DefaultCpuLimit, DefaultMemoryLimit, DefaultPodsLimit, endpoint, DefaultMinioPort);
      }
    }
  }

  /** delete_namespace removes the namespace with everything in it, treats 404
      as success, and raises anything else without changing the cluster. */
  lemma DeleteNamespaceOutcome(s: ClusterState, faults: map<ApiCall, int>, name: string)
    ensures var (r, s') := DeleteNamespaceSpec(s, faults, name);
      && (DeleteNamespaceCall !in faults ==> r == Pass && name !in s'.namespaces)
      && (Consistent(s) ==> Consistent(s'))
      && (DeleteNamespaceCall !in faults && Consistent(s) ==>
            && (forall k :: k in s'.quotas ==> k.namespace != name)
            && (forall k :: k in s'.policies ==> k.namespace != name)
            && (forall k :: k in s'.ingresses ==> k.namespace != name)
            && (forall k :: k in s.ingresses && k.namespace != name ==> k in s'.ingresses))
      && (r.Fail? ==> s' == s && r.error != 404)
  {
    var (r, s') := DeleteNamespaceSpec(s, faults, name);
    if Consistent(s) {
      DeleteNamespaceKeepsConsistent(s, faults, name);
    }
    if DeleteNamespaceCall !in faults && name in s.namespaces {
      assert s' == ApiDeleteNamespace(s, faults, name).1;
      forall k | k in s'.quotas ensures k.namespace != name {
        assert k in s.quotas && k.namespace != name;
      }
      forall k | k in s'.policies ensures k.namespace != name {
        assert k in s.policies && k.namespace != name;
      }
      forall k | k in s'.ingresses ensures k.namespace != name {
        assert k in s.ingresses && k.namespace != name;
      }
    }
  }

  lemma NamespaceCreateKeepsConsistent(s: ClusterState, faults: map<ApiCall, int>, name: string, labels: map<string, string>)
    requires Consistent(s)
    ensures Consistent(ApiCreateNamespace(s, faults, name, labels).1)
  {
  }

  lemma QuotaCreateKeepsConsistent(s: ClusterState, faults: map<ApiCall, int>, key: ObjectKey, quota: Quota)
    requires Consistent(s)
    ensures Consistent(ApiCreateQuota(s, faults, key, quota).1)
  {
  }

  lemma PolicyCreateKeepsConsistent(s: ClusterState, faults: map<ApiCall, int>, key: ObjectKey, policy: NetworkPolicy)
    requires Consistent(s)
    ensures Consistent(ApiCreatePolicy(s, faults, key, policy).1)
  {
  }

  lemma IngressWritesKeepConsistent(s: ClusterState, faults: map<ApiCall, int>, key: ObjectKey, ingress: Ingress)
    requires Consistent(s)
    ensures Consistent(ApiCreateIngress(s, faults, key, ingress).1)
    ensures Consistent(ApiDeleteIngress(s, faults, key).1)
  {
  }

  /** Every write the client makes keeps each object inside an existing
      namespace, so any state the client reaches from a consistent one is
      consistent. */
  lemma WritesKeepConsistent(s: ClusterState, faults: map<ApiCall, int>, name: string, labels: map<string, string>,
                             key: ObjectKey, quota: Quota, policy: NetworkPolicy, ingress: Ingress)
    requires Consistent(s)
    ensures Consistent(ApiCreateNamespace(s, faults, name, labels).1)
    ensures Consistent(ApiCreateQuota(s, faults, key, quota).1)
    ensures Consistent(ApiCreatePolicy(s, faults, key, policy).1)
    ensures Consistent(ApiCreateIngress(s, faults, key, ingress).1)
    ensures Consistent(ApiDeleteIngress(s, faults, key).1)
    ensures Consistent(ApiDeleteNamespace(s, faults, name).1)
  {
    NamespaceCreateKeepsConsistent(s, faults, name, labels);
    QuotaCreateKeepsConsistent(s, faults, key, quota);
    PolicyCreateKeepsConsistent(s, faults, key, policy);
    IngressWritesKeepConsistent(s, faults, key, ingress);
    DeleteNamespaceKeepsConsistent(s, faults, name);
  }

  /** Deleting a namespace takes its objects with it, so nothing is left outside a namespace. */
  lemma DeleteNamespaceKeepsConsistent(s: ClusterState, faults: map<ApiCall, int>, name: string)
    requires Consistent(s)
    ensures Consistent(ApiDeleteNamespace(s, faults, name).1)
  {
    var d := ApiDeleteNamespace(s, faults, name).1;
    if DeleteNamespaceCall !in faults && name in s.namespaces {
      forall k | k in d.quotas ensures k.namespace in d.namespaces {
        assert k in s.quotas && k.namespace != name;
      }
      forall k | k in d.policies ensures k.namespace in d.namespaces {
        assert k in s.policies && k.namespace != name;
      }
      forall k | k in d.ingresses ensures k.namespace in d.namespaces {
        assert k in s.ingresses && k.namespace != name;
      }
    }
  }

  /** create_ingress answers `http://{host}{path}` when it creates the ingress
      and when it already exists; delete_ingress treats 404 as success. */
  lemma IngressOutcome(s: ClusterState, faults: map<ApiCall, int>, namespace: string, name: string,
                       serviceName: string, servicePort: int, host: string, path: string,
                       ingressClass: string, annotations: map<string, string>)
    ensures var (r, s') := CreateIngressSpec(s, faults, namespace, name, serviceName, servicePort, host, path, ingressClass, annotations);
      && (CreateIngressCall !in faults && namespace in s.namespaces ==> r == Success("http://" + host + path))
      && (r.Success? ==> r.value == "http://" + host + path)
      && (CreateIngressCall !in faults && namespace in s.namespaces && ObjectKey(namespace, name) !in s.ingresses ==>
            s'.ingresses[ObjectKey(namespace, name)] == Ingress(ingressClass, host, path, "Prefix", serviceName, servicePort, annotations))
      && (r.Failure? ==> s' == s && r.error != 409)
    ensures var (r, s') := DeleteIngressSpec(s, faults, namespace, name);
      && (DeleteIngressCall !in faults ==> r == Pass && ObjectKey(namespace, name) !in s'.ingresses)
      && (r.Fail? ==> s' == s && r.error != 404)
  {
  }

  // The fake API server and the client over it

  /** The stateful face of the Api* functions above: the API server the
      client talks to, holding the cluster state and the calls that fail. It
      stands for the Kubernetes API server, not for code of the repository;
      each method applies its Api* function once to the current state. */
  class Cluster {
    var state: ClusterState
    const faults: map<ApiCall, int>

    constructor (state: ClusterState, faults: map<ApiCall, int>)
      ensures this.state == state && this.faults == faults
    {
      this.state := state;
      this.faults := faults;
    }

    method ReadNamespace(name: string) returns (r: ApiResult)
      ensures r == ApiReadNamespace(state, faults, name)
    {
      r := ApiReadNamespace(state, faults, name);
    }

    method CreateNamespace(name: string, labels: map<string, string>) returns (r: ApiResult)
      modifies this
      ensures (r, state) == ApiCreateNamespace(old(state), faults, name, labels)
    {
      var (res, next) := ApiCreateNamespace(state, faults, name, labels);
      r, state := res, next;
    }

    method DeleteNamespace(name: string) returns (r: ApiResult)
      modifies this
      ensures (r, state) == ApiDeleteNamespace(old(state), faults, name)
    {
      var (res, next) := ApiDeleteNamespace(state, faults, name);
      r, state := res, next;
    }

    method CreateQuota(key: ObjectKey, quota: Quota) returns (r: ApiResult)
      modifies this
      ensures (r, state) == ApiCreateQuota(old(state), faults, key, quota)
    {
      var (res, next) := ApiCreateQuota(state, faults, key, quota);
      r, state := res, next;
    }

    method CreatePolicy(key: ObjectKey, policy: NetworkPolicy) returns (r: ApiResult)
      modifies this
      ensures (r, state) == ApiCreatePolicy(old(state), faults, key, policy)
    {
      var (res, next) := ApiCreatePolicy(state, faults, key, policy);
      r, state := res, next;
    }

    method CreateIngress(key: ObjectKey, ingress: Ingress) returns (r: ApiResult)
      modifies this
      ensures (r, state) == ApiCreateIngress(old(state), faults, key, ingress)
    {
      var (res, next) := ApiCreateIngress(state, faults, key, ingress);
      r, state := res, next;
    }

    method DeleteIngress(key: ObjectKey) returns (r: ApiResult)
      modifies this
      ensures (r, state) == ApiDeleteIngress(old(state), faults, key)
    {
      var (res, next) := ApiDeleteIngress(state, faults, key);
      r, state := res, next;
    }
  }

  class KubernetesClient {
    const api: Cluster

    constructor (api: Cluster)
      ensures this.api == api
    {
      this.api := api;
    }

    method NamespaceExists(name: string) returns (r: Result<bool, int>)
      ensures r == NamespaceExistsSpec(api.state, api.faults, name)
    {
      var read := api.ReadNamespace(name);
      if read.Success? {
        return Success(true);
      }
      if read.error == 404 {
        return Success(false);
      }
      r := Failure(read.error);
    }

    method CreateNamespace(name: string, labels: map<string, string>) returns (r: Outcome<int>)
      modifies api
      ensures (r, api.state) == CreateNamespaceSpec(old(api.state), api.faults, name, labels)
    {
      var exists_ := NamespaceExists(name);
      if exists_.Failure? {
        return Fail(exists_.error);
      }
      if exists_.value {
        return Pass;
      }
      var created := api.CreateNamespace(name, labels);
      if created.Failure? && created.error != 409 {
        return Fail(created.error);
      }
      r := Pass;
    }

    method CreateResourceQuota(namespace: string, cpuLimit: string, memoryLimit: string, podsLimit: int) returns (r: Outcome<int>)
      modifies api
      ensures (r, api.state) == CreateQuotaSpec(old(api.state), api.faults, namespace, cpuLimit, memoryLimit, podsLimit)
    {
      var created := api.CreateQuota(ObjectKey(namespace, QuotaName), QuotaFor(cpuLimit, memoryLimit, podsLimit));
      if created.Failure? && created.error != 409 {
        return Fail(created.error);
      }
      r := Pass;
    }

    method CreateNetworkPolicy(namespace: string, minioEndpoint: string, minioPort: int) returns (r: Outcome<int>)
      modifies api
      ensures (r, api.state) == CreatePolicySpec(old(api.state), api.faults, namespace, minioEndpoint, minioPort)
    {
      var minioHost := MinioHost(minioEndpoint);
      var created := api.CreatePolicy(ObjectKey(namespace, PolicyName), PolicyFor(minioPort));
      if created.Failure? && created.error != 409 {
        return Fail(created.error);
      }
      r := Pass;
    }

    method SetupUserNamespace(userId: int, minioEndpoint: Option<string>, settingsEndpoint: string) returns (r: Result<string, int>)
      modifies api
      ensures (r, api.state) == SetupSpec(old(api.state), api.faults, userId, minioEndpoint, settingsEndpoint)
    {
      var namespace := UserNamespace(userId);
      var endpoint := OrDefault(minioEndpoint, settingsEndpoint);
      var step := CreateNamespace(namespace, UserLabels(userId));
      if step.Fail? {
        return Failure(step.error);
      }
      step := CreateResourceQuota(namespace, DefaultCpuLimit, DefaultMemoryLimit, DefaultPodsLimit);
      if step.Fail? {
        return Failure(step.error);
      }
      step := CreateNetworkPolicy(namespace, endpoint, DefaultMinioPort);
      if step.Fail? {
        return Failure(step.error);
      }
      r := Success(namespace);
    }

    method DeleteNamespace(name: string) returns (r: Outcome<int>)
      modifies api
      ensures (r, api.state) == DeleteNamespaceSpec(old(api.state), api.faults, name)
    {
      var deleted := api.DeleteNamespace(name);
      if deleted.Failure? && deleted.error != 404 {
        return Fail(deleted.error);
      }
      r := Pass;
    }

    method CreateIngress(namespace: string, name: string, serviceName: string, servicePort: int,
                         host: string, path: string, ingressClass: string, annotations: map<string, string>)
      returns (r: Result<string, int>)
      modifies api
      ensures (r, api.state) ==
        CreateIngressSpec(old(api.state), api.faults, namespace, name, serviceName, servicePort, host, path, ingressClass, annotations)
    {
      var created := api.CreateIngress(ObjectKey(namespace, name),
                                       IngressFor(serviceName, servicePort, host, path, ingressClass, annotations));
      if created.Failure? && created.error != 409 {
        return Failure(created.error);
      }
      r := Success("http://" + host + path);
    }

    method DeleteIngress(namespace: string, name: string) returns (r: Outcome<int>)
      modifies api
      ensures (r, api.state) == DeleteIngressSpec(old(api.state), api.faults, namespace, name)
    {
      var deleted := api.DeleteIngress(ObjectKey(namespace, name));
      if deleted.Failure? && deleted.error != 404 {
        return Fail(deleted.error);
      }
      r := Pass;
    }
  }
}
