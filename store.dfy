/**
 * The object store the reconciler and the baseline talk to through the controller-runtime
 * client: NamespaceRequests, Tenants, Namespaces with their labels, and the namespaced
 * objects of the baseline. A Cluster holds the store and a log of the writes made to it;
 * its value, State(), is a World, and every client call is specified by a function on Worlds.
 * Which calls fail, and with what text, is decided by fault parameters.
 */
module Store {
  import opened Wrappers
  import opened GoStrings
  import opened Api

  /** The kinds of namespaced object the baseline writes. */
  datatype Kind = RoleBindingKind | ResourceQuotaKind | LimitRangeKind | NetworkPolicyKind

  datatype ObjectKey = ObjectKey(namespace: string, kind: Kind, name: string)

  /** The three NetworkPolicies, by what they allow. */
  datatype PolicyRule = DenyAll | AllowDnsEgress | AllowSameNamespace

  /** The resource names (corev1.ResourceName) the baseline's quotas and limits use. */
  datatype Resource =
    | RequestsCpu | RequestsMemory | LimitsCpu | LimitsMemory | Pods | Services
    | ConfigMaps | Secrets | PersistentVolumeClaims | NvidiaGpu | Cpu | Memory

  function ResourceName(r: Resource): string {
    match r
    case RequestsCpu => "requests.cpu"
    case RequestsMemory => "requests.memory"
    case LimitsCpu => "limits.cpu"
    case LimitsMemory => "limits.memory"
    case Pods => "pods"
    case Services => "services"
    case ConfigMaps => "configmaps"
    case Secrets => "secrets"
    case PersistentVolumeClaims => "persistentvolumeclaims"
    case NvidiaGpu => "nvidia.com/gpu"
    case Cpu => "cpu"
    case Memory => "memory"
  }

  /** A corev1.ResourceList: resource to quantity, the quantity kept as its source text. */
  type ResourceList = map<Resource, string>

  /** The part of an object's spec the baseline sets; Blank is a freshly built object. */
  datatype Body =
    | Blank
    | RoleBindingBody(subjectGroup: string, clusterRole: string)
    | ResourceQuotaBody(hard: ResourceList)
    | LimitRangeBody(defaultRequest: ResourceList, defaultLimit: ResourceList)
    | NetworkPolicyBody(rule: PolicyRule)

  datatype KubeObject = KubeObject(labels: Labels, annotations: Labels, body: Body)

  /** The object CreateOrUpdate starts from when none is stored: only its name is set. */
  const EmptyObject: KubeObject := KubeObject(map[], map[], Blank)

  /** The errors the core produces or passes on. */
  datatype Error =
    | ClientError(text: string)
    | NotFound(resource: string, name: string)
    | AlreadyExists(resource: string, name: string)
    | TenantEmpty
    | InvalidQuantity(quantityOf: Resource, value: string)
    | Wrapped(context: string, inner: Error)

  /** err.Error(). */
  function Message(e: Error): string {
    match e
    case ClientError(text) => text
    case NotFound(resource, name) => resource + " " + Quote(name) + " not found"
    case AlreadyExists(resource, name) => resource + " " + Quote(name) + " already exists"
    case TenantEmpty => "spec.tenant is empty"
    case InvalidQuantity(quantityOf, value) => "invalid quantity for " + ResourceName(quantityOf) + "=" + Quote(value)
    case Wrapped(context, inner) => context + ": " + Message(inner)
  }

  /** One write the store accepted. */
  datatype Write =
    | CreatedNamespace(name: string)
    | UpdatedNamespace(name: string)
    | CreatedObject(key: ObjectKey)
    | UpdatedObject(key: ObjectKey)
    | UpdatedStatus(request: string)

  datatype World = World(
    requests: map<string, NamespaceRequest>,
    tenants: map<string, Tenant>,
    namespaces: map<string, Labels>,
    objects: map<ObjectKey, KubeObject>,
    writes: seq<Write>)

  /** The outcome of a Get: the object, NotFound, or another error. */
  datatype Read<T> = Found(value: T) | Absent | ReadFailed(error: Error)

  const RequestResource: string := "namespacerequests.guardian.guardian.io"
  const TenantResource: string := "tenants.guardian.guardian.io"
  const NamespaceResource: string := "namespaces"

  function KindResource(k: Kind): string {
    match k
    case RoleBindingKind => "rolebindings.rbac.authorization.k8s.io"
    case ResourceQuotaKind => "resourcequotas"
    case LimitRangeKind => "limitranges"
    case NetworkPolicyKind => "networkpolicies.networking.k8s.io"
  }

  function ReadKey<K, V>(m: map<K, V>, k: K, fault: Option<string>): (r: Read<V>)
    ensures r.Found? <==> fault.None? && k in m
    ensures r.Found? ==> r.value == m[k]
  {
    if fault.Some? then ReadFailed(ClientError(fault.value))
    else if k in m then Found(m[k])
    else Absent
  }

  function RequestIn(w: World, name: string, fault: Option<string>): Read<NamespaceRequest> {
    ReadKey(w.requests, name, fault)
  }

  function TenantIn(w: World, name: string, fault: Option<string>): Read<Tenant> {
    ReadKey(w.tenants, name, fault)
  }

  function NamespaceIn(w: World, name: string, fault: Option<string>): Read<Labels> {
    ReadKey(w.namespaces, name, fault)
  }

  function ObjectIn(w: World, key: ObjectKey, fault: Option<string>): Read<KubeObject> {
    ReadKey(w.objects, key, fault)
  }

  /** Client.Create of a Namespace. */
  function NamespaceCreated(w: World, name: string, labels: Labels, fault: Option<string>): (r: (World, Option<Error>))
    ensures r.1.None? <==> fault.None? && name !in w.namespaces
    ensures r.1.Some? ==> r.0 == w
    ensures r.1.None? ==> r.0 == w.(namespaces := w.namespaces[name := labels],
                                    writes := w.writes + [CreatedNamespace(name)])
  {
    if fault.Some? then (w, Some(ClientError(fault.value)))
    else if name in w.namespaces then (w, Some(AlreadyExists(NamespaceResource, name)))
    else (w.(namespaces := w.namespaces[name := labels], writes := w.writes + [CreatedNamespace(name)]), None)
  }

  /** Client.Update of a Namespace. */
  function NamespaceUpdated(w: World, name: string, labels: Labels, fault: Option<string>): (r: (World, Option<Error>))
    ensures r.1.None? <==> fault.None? && name in w.namespaces
    ensures r.1.Some? ==> r.0 == w
    ensures r.1.None? ==> r.0 == w.(namespaces := w.namespaces[name := labels],
                                    writes := w.writes + [UpdatedNamespace(name)])
  {
    if fault.Some? then (w, Some(ClientError(fault.value)))
    else if name !in w.namespaces then (w, Some(NotFound(NamespaceResource, name)))
    else (w.(namespaces := w.namespaces[name := labels], writes := w.writes + [UpdatedNamespace(name)]), None)
  }

  /** Client.Status().Update: only the status of the stored request is replaced. */
  function StatusUpdated(w: World, nr: NamespaceRequest, fault: Option<string>): (r: (World, Option<Error>))
    ensures r.1.None? <==> fault.None? && nr.name in w.requests
    ensures r.1.Some? ==> r.0 == w
    ensures r.1.None? ==> r.0 == w.(requests := w.requests[nr.name := w.requests[nr.name].(status := nr.status)],
                                    writes := w.writes + [UpdatedStatus(nr.name)])
  {
    if fault.Some? then (w, Some(ClientError(fault.value)))
    else if nr.name !in w.requests then (w, Some(NotFound(RequestResource, nr.name)))
    else
      (w.(requests := w.requests[nr.name := w.requests[nr.name].(status := nr.status)],
          writes := w.writes + [UpdatedStatus(nr.name)]), None)
  }

  /** Client.Create of a namespaced object. */
  function ObjectCreated(w: World, key: ObjectKey, o: KubeObject, fault: Option<string>): (r: (World, Option<Error>))
    ensures r.1.None? <==> fault.None? && key !in w.objects
    ensures r.1.Some? ==> r.0 == w
    ensures r.1.None? ==> r.0 == w.(objects := w.objects[key := o], writes := w.writes + [CreatedObject(key)])
  {
    if fault.Some? then (w, Some(ClientError(fault.value)))
    else if key in w.objects then (w, Some(AlreadyExists(KindResource(key.kind), key.name)))
    else (w.(objects := w.objects[key := o], writes := w.writes + [CreatedObject(key)]), None)
  }

  /** Client.Update of a namespaced object. */
  function ObjectUpdated(w: World, key: ObjectKey, o: KubeObject, fault: Option<string>): (r: (World, Option<Error>))
    ensures r.1.None? <==> fault.None? && key in w.objects
    ensures r.1.Some? ==> r.0 == w
    ensures r.1.None? ==> r.0 == w.(objects := w.objects[key := o], writes := w.writes + [UpdatedObject(key)])
  {
    if fault.Some? then (w, Some(ClientError(fault.value)))
    else if key !in w.objects then (w, Some(NotFound(KindResource(key.kind), key.name)))
    else (w.(objects := w.objects[key := o], writes := w.writes + [UpdatedObject(key)]), None)
  }

  /** The store, updated in place by the client calls. */
  class Cluster {
    var requests: map<string, NamespaceRequest>
    var tenants: map<string, Tenant>
    var namespaces: map<string, Labels>
    var objects: map<ObjectKey, KubeObject>
    var writes: seq<Write>

    function State(): World
      reads this
    {
      World(requests, tenants, namespaces, objects, writes)
    }

    constructor (w: World)
      ensures State() == w
    {
      requests, tenants, namespaces, objects, writes := w.requests, w.tenants, w.namespaces, w.objects, w.writes;
    }

    method GetRequest(name: string, fault: Option<string>) returns (r: Read<NamespaceRequest>)
      ensures r == RequestIn(State(), name, fault)
    {
      r := ReadKey(requests, name, fault);
    }

    method GetTenant(name: string, fault: Option<string>) returns (r: Read<Tenant>)
      ensures r == TenantIn(State(), name, fault)
    {
      r := ReadKey(tenants, name, fault);
    }

    method GetNamespace(name: string, fault: Option<string>) returns (r: Read<Labels>)
      ensures r == NamespaceIn(State(), name, fault)
    {
      r := ReadKey(namespaces, name, fault);
    }

    method GetObject(key: ObjectKey, fault: Option<string>) returns (r: Read<KubeObject>)
      ensures r == ObjectIn(State(), key, fault)
    {
      r := ReadKey(objects, key, fault);
    }

    method CreateNamespace(name: string, labels: Labels, fault: Option<string>) returns (err: Option<Error>)
      modifies this
      ensures (State(), err) == NamespaceCreated(old(State()), name, labels, fault)
    {
      if fault.Some? {
        return Some(ClientError(fault.value));
      }
      if name in namespaces {
        return Some(AlreadyExists(NamespaceResource, name));
      }
      namespaces := namespaces[name := labels];
      writes := writes + [CreatedNamespace(name)];
      err := None;
    }

    method UpdateNamespace(name: string, labels: Labels, fault: Option<string>) returns (err: Option<Error>)
      modifies this
      ensures (State(), err) == NamespaceUpdated(old(State()), name, labels, fault)
    {
      if fault.Some? {
        return Some(ClientError(fault.value));
      }
      if name !in namespaces {
        return Some(NotFound(NamespaceResource, name));
      }
      namespaces := namespaces[name := labels];
      writes := writes + [UpdatedNamespace(name)];
      err := None;
    }

    method UpdateStatus(nr: NamespaceRequest, fault: Option<string>) returns (err: Option<Error>)
      modifies this
      ensures (State(), err) == StatusUpdated(old(State()), nr, fault)
    {
      if fault.Some? {
        return Some(ClientError(fault.value));
      }
      if nr.name !in requests {
        return Some(NotFound(RequestResource, nr.name));
      }
      requests := requests[nr.name := requests[nr.name].(status := nr.status)];
      writes := writes + [UpdatedStatus(nr.name)];
      err := None;
    }

    method CreateObject(key: ObjectKey, o: KubeObject, fault: Option<string>) returns (err: Option<Error>)
      modifies this
      ensures (State(), err) == ObjectCreated(old(State()), key, o, fault)
    {
      if fault.Some? {
        return Some(ClientError(fault.value));
      }
      if key in objects {
        return Some(AlreadyExists(KindResource(key.kind), key.name));
      }
      objects := objects[key := o];
      writes := writes + [CreatedObject(key)];
      err := None;
    }

    method UpdateObject(key: ObjectKey, o: KubeObject, fault: Option<string>) returns (err: Option<Error>)
      modifies this
      ensures (State(), err) == ObjectUpdated(old(State()), key, o, fault)
    {
      if fault.Some? {
        return Some(ClientError(fault.value));
      }
      if key !in objects {
        return Some(NotFound(KindResource(key.kind), key.name));
      }
      objects := objects[key := o];
      writes := writes + [UpdatedObject(key)];
      err := None;
    }
  }
}
