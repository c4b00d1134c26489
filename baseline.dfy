/**
 * The baseline of a provisioned namespace (internal/controller/baseline.go): two
 * RoleBindings, a ResourceQuota, a LimitRange and three NetworkPolicies, each upserted
 * with CreateOrUpdate in a fixed order that stops at the first error. Every object gets
 * the baseline labels and the two raw-value annotations. The quota comes from the
 * tenant (environment override, then tenant default) or, when that yields nothing,
 * from a global table.
 */
module Baseline {
  import opened Wrappers
  import opened GoStrings
  import opened Fingerprint
  import opened Api
  import opened Store

  /** resource.ParseQuantity, reduced to whether it accepts a trimmed string. */
  type ValidQuantity = string -> bool

  datatype BaselineSpec = BaselineSpec(
    tenant: string, env: string, ownerGroup: string, requestName: string, tenantObj: Option<Tenant>)

  /** selectQuotaHard. */
  function SelectQuotaHard(t: Option<Tenant>, env: string): (QuotaHard, bool) {
    if t.None? || t.value.quota.None? then (EmptyQuotaHard, false)
    else if env in t.value.quota.value.byEnv then (t.value.quota.value.byEnv[env], true)
    else (t.value.quota.value.defaultHard, true)
  }

  /** One quantity of a QuotaHard, with the resource it limits. */
  datatype QuantityField = QuantityField(resource: Resource, text: string)

  /** The fields of a QuotaHard in the order quotaHardToResourceList puts them. */
  function Fields(q: QuotaHard): seq<QuantityField> {
    [QuantityField(RequestsCpu, q.requestsCPU), QuantityField(RequestsMemory, q.requestsMemory),
     QuantityField(LimitsCpu, q.limitsCPU), QuantityField(LimitsMemory, q.limitsMemory),
     QuantityField(Pods, q.pods), QuantityField(Services, q.services),
     QuantityField(ConfigMaps, q.configMaps), QuantityField(Secrets, q.secrets),
     QuantityField(PersistentVolumeClaims, q.persistentVolumeClaims), QuantityField(NvidiaGpu, q.nvidiaGPU)]
  }

  /** The put closure on an already trimmed value: a blank value is skipped, a malformed one
      is an error naming the resource, any other is stored. */
  function Put(out: ResourceList, name: Resource, t: string, valid: ValidQuantity): Result<ResourceList, Error> {
    if t == "" then Success(out)
    else if !valid(t) then Failure(InvalidQuantity(name, t))
    else Success(out[name := t])
  }

  /** The quota with every field trimmed, as put sees each value. */
  function Trimmed(q: QuotaHard): QuotaHard {
    QuotaHard(TrimSpace(q.requestsCPU), TrimSpace(q.requestsMemory), TrimSpace(q.limitsCPU),
              TrimSpace(q.limitsMemory), TrimSpace(q.pods), TrimSpace(q.services),
              TrimSpace(q.configMaps), TrimSpace(q.secrets), TrimSpace(q.persistentVolumeClaims),
              TrimSpace(q.nvidiaGPU))
  }

  /** Puts the trimmed fields from index k on, in order, stopping at the first error. */
  function PutFrom(out: ResourceList, fs: seq<QuantityField>, k: nat, valid: ValidQuantity): Result<ResourceList, Error>
    decreases |fs| - k
  {
    if k >= |fs| then Success(out)
    else match Put(out, fs[k].resource, fs[k].text, valid)
      case Failure(e) => Failure(e)
      case Success(o) => PutFrom(o, fs, k + 1, valid)
  }

  /** What quotaHardToResourceList returns. */
  function ResourceListOf(q: QuotaHard, valid: ValidQuantity): Result<ResourceList, Error> {
    PutFrom(map[], Fields(Trimmed(q)), 0, valid)
  }

  /** defaultGlobalResourceQuota. */
  const DefaultGlobalQuota: ResourceList := map[
    RequestsCpu := "8", RequestsMemory := "16Gi",
    LimitsCpu := "16", LimitsMemory := "32Gi",
    Pods := "100", Services := "20",
    ConfigMaps := "200", Secrets := "200", PersistentVolumeClaims := "20"]

  /** The hard limits ensureResourceQuota writes: the tenant's list when it is non-empty,
      the global table otherwise; a malformed tenant quantity is an error. */
  function QuotaHardFor(spec: BaselineSpec, valid: ValidQuantity): Result<ResourceList, Error> {
    var fromTenant :=
      if spec.tenantObj.None? then Success(map[])
      else
        var sel := SelectQuotaHard(spec.tenantObj, spec.env);
        if sel.1 then ResourceListOf(sel.0, valid) else Success(map[]);
    match fromTenant
    case Failure(e) => Failure(e)
    case Success(hard) => Success(if |hard| == 0 then DefaultGlobalQuota else hard)
  }

  /** The LimitRange's container defaults. */
  const LimitDefaultRequest: ResourceList := map[Cpu := "100m", Memory := "256Mi"]
  const LimitDefault: ResourceList := map[Cpu := "1", Memory := "1Gi"]

  const EditRole: string := "guardian-tenant-edit"

  /** baselineLabels. */
  function BaselineLabels(sha1: Sha1, spec: BaselineSpec): Labels {
    map[LabelManaged := "true", LabelTenant := spec.tenant, LabelEnv := spec.env,
        LabelOwnerGroupHash := ShortHash16(sha1, spec.ownerGroup),
        LabelRequestHash := ShortHash16(sha1, spec.requestName)]
  }

  /** ensureBaselineMeta on an object's metadata: the labels merged in, the raw owner group
      and request name recorded as annotations. */
  function BaselineMeta(labels: Labels, ownerGroup: string, requestName: string, o: KubeObject): KubeObject {
    o.(labels := o.labels + labels,
       annotations := o.annotations[AnnOwnerGroupRaw := ownerGroup][AnnRequestRaw := requestName])
  }

  /** What the mutate closures write that depends on the spec alone: the labels and raw
      values of ensureBaselineMeta, the admin binding's group, and the quota's hard limits
      or the error computing them. */
  datatype Plan = Plan(labels: Labels, ownerGroup: string, requestName: string,
                       adminGroup: string, quotaHard: Result<ResourceList, Error>)

  function PlanFor(sha1: Sha1, valid: ValidQuantity, spec: BaselineSpec): Plan {
    Plan(BaselineLabels(sha1, spec), spec.ownerGroup, spec.requestName,
         spec.tenant + ":ns-admin", QuotaHardFor(spec, valid))
  }

  /** The seven upserts, in the order EnsureBaseline performs them. */
  datatype Step = OwnerBinding | AdminBinding | Quota | LimitRange | DenyPolicy | DnsPolicy | SameNamespacePolicy

  /** The object each step writes. */
  function StepKey(ns: string, step: Step): ObjectKey {
    match step
    case OwnerBinding => ObjectKey(ns, RoleBindingKind, "guardian-owner-edit")
    case AdminBinding => ObjectKey(ns, RoleBindingKind, "guardian-tenant-admin.yaml")
    case Quota => ObjectKey(ns, ResourceQuotaKind, "guardian-rq-default")
    case LimitRange => ObjectKey(ns, LimitRangeKind, "guardian-lr-default")
    case DenyPolicy => ObjectKey(ns, NetworkPolicyKind, "guardian-np-default-deny")
    case DnsPolicy => ObjectKey(ns, NetworkPolicyKind, "guardian-np-allow-dns")
    case SameNamespacePolicy => ObjectKey(ns, NetworkPolicyKind, "guardian-np-allow-same-namespace")
  }

  /** The text EnsureBaseline wraps a step's error in. */
  function StepContext(step: Step): string {
    match step
    case OwnerBinding => "ensure owner edit rolebinding"
    case AdminBinding => "ensure tenant admin rolebinding"
    case Quota => "ensure resourcequota"
    case LimitRange => "ensure limitrange"
    case _ => "ensure networkpolicies"
  }

  /** The spec each step's mutate closure sets, or the error computing it. */
  function BodyFor(plan: Plan, step: Step): Result<Body, Error> {
    match step
    case OwnerBinding => Success(RoleBindingBody(plan.ownerGroup, EditRole))
    case AdminBinding => Success(RoleBindingBody(plan.adminGroup, EditRole))
    case Quota =>
      (match plan.quotaHard
       case Failure(e) => Failure(e)
       case Success(hard) => Success(ResourceQuotaBody(hard)))
    case LimitRange => Success(LimitRangeBody(LimitDefaultRequest, LimitDefault))
    case DenyPolicy => Success(NetworkPolicyBody(DenyAll))
    case DnsPolicy => Success(NetworkPolicyBody(AllowDnsEgress))
    case SameNamespacePolicy => Success(NetworkPolicyBody(AllowSameNamespace))
  }

  /** The mutate closure of each step, applied to the stored (or freshly built) object:
      ensureBaselineMeta, then the step's spec. */
  function Mutated(plan: Plan, step: Step, o: KubeObject): Result<KubeObject, Error> {
    match BodyFor(plan, step)
    case Failure(e) => Failure(e)
    case Success(b) => Success(BaselineMeta(plan.labels, plan.ownerGroup, plan.requestName, o).(body := b))
  }

  /** Which client call of a step's CreateOrUpdate fails: its Get, or its Create/Update. */
  datatype StepFault = StepFault(onGet: Option<string>, onWrite: Option<string>)

  type StepFaults = map<Step, StepFault>

  const NoFault: StepFault := StepFault(None, None)

  /** No call fails. */
  const NoFaults: StepFaults := map[]

  function FaultOf(faults: StepFaults, step: Step): StepFault {
    if step in faults then faults[step] else NoFault
  }

  /** controllerutil.CreateOrUpdate: Get the object, apply the mutate closure to it (or to
      an empty object when it is absent), then Create when it was absent, Update when the
      mutation changed it, and nothing otherwise. */
  function CreatedOrUpdated(w: World, key: ObjectKey, mutate: KubeObject -> Result<KubeObject, Error>, fault: StepFault): (World, Option<Error>) {
    match ObjectIn(w, key, fault.onGet)
    case ReadFailed(e) => (w, Some(e))
    case Absent =>
      (match mutate(EmptyObject)
       case Failure(e) => (w, Some(e))
       case Success(o) => ObjectCreated(w, key, o, fault.onWrite))
    case Found(cur) =>
      (match mutate(cur)
       case Failure(e) => (w, Some(e))
       case Success(o) => if o == cur then (w, None) else ObjectUpdated(w, key, o, fault.onWrite))
  }

  /** CreateOrUpdate of one step's object with that step's mutate closure. */
  function Upserted(w: World, plan: Plan, ns: string, step: Step, fault: StepFault): (World, Option<Error>) {
    CreatedOrUpdated(w, StepKey(ns, step), o => Mutated(plan, step, o), fault)
  }

  /** The outcome of a further step: nothing happens once an earlier step has failed. */
  function Then(r: (World, Option<Error>), plan: Plan, ns: string, step: Step, faults: StepFaults): (World, Option<Error>) {
    if r.1.Some? then r else Upserted(r.0, plan, ns, step, FaultOf(faults, step))
  }

  /** ensureNetworkPolicies. */
  function PoliciesEnsured(w: World, plan: Plan, ns: string, faults: StepFaults): (World, Option<Error>) {
    Then(Then(Upserted(w, plan, ns, DenyPolicy, FaultOf(faults, DenyPolicy)), plan, ns, DnsPolicy, faults),
         plan, ns, SameNamespacePolicy, faults)
  }

  function Wrap(context: string, r: (World, Option<Error>)): (World, Option<Error>) {
    (r.0, if r.1.None? then None else Some(Wrapped(context, r.1.value)))
  }

  /** EnsureBaseline. */
  function BaselineEnsured(w: World, plan: Plan, ns: string, faults: StepFaults): (World, Option<Error>) {
    var r0 := Upserted(w, plan, ns, OwnerBinding, FaultOf(faults, OwnerBinding));
    if r0.1.Some? then Wrap(StepContext(OwnerBinding), r0) else
    var r1 := Upserted(r0.0, plan, ns, AdminBinding, FaultOf(faults, AdminBinding));
    if r1.1.Some? then Wrap(StepContext(AdminBinding), r1) else
    var r2 := Upserted(r1.0, plan, ns, Quota, FaultOf(faults, Quota));
    if r2.1.Some? then Wrap(StepContext(Quota), r2) else
    var r3 := Upserted(r2.0, plan, ns, LimitRange, FaultOf(faults, LimitRange));
    if r3.1.Some? then Wrap(StepContext(LimitRange), r3) else
    Wrap("ensure networkpolicies", PoliciesEnsured(r3.0, plan, ns, faults))
  }

  /** The put closure, which adds to the list it captures. */
  method PutQuantity(out: ResourceList, name: Resource, s: string, valid: ValidQuantity,
                     ghost fs: seq<QuantityField>, ghost k: nat)
    returns (out': ResourceList, err: Option<Error>)
    requires k < |fs| && fs[k] == QuantityField(name, TrimSpace(s))
    ensures err.None? ==> Put(out, name, TrimSpace(s), valid) == Success(out')
    ensures err.Some? ==> Put(out, name, TrimSpace(s), valid) == Failure(err.value)
    ensures err.None? ==> PutFrom(out, fs, k, valid) == PutFrom(out', fs, k + 1, valid)
    ensures err.Some? ==> PutFrom(out, fs, k, valid) == Failure(err.value)
  {
    out' := out;
    var t := TrimSpace(s);
    if t == "" {
      return out', None;
    }
    if !valid(t) {
      return out', Some(InvalidQuantity(name, t));
    }
    out' := out'[name := t];
    err := None;
  }

  /** The fields one by one, in the order the puts run. */
  lemma FieldsInOrder(q: QuotaHard)
    ensures |Fields(q)| == 10
    ensures Fields(q)[0] == QuantityField(RequestsCpu, q.requestsCPU)
    ensures Fields(q)[1] == QuantityField(RequestsMemory, q.requestsMemory)
    ensures Fields(q)[2] == QuantityField(LimitsCpu, q.limitsCPU)
    ensures Fields(q)[3] == QuantityField(LimitsMemory, q.limitsMemory)
    ensures Fields(q)[4] == QuantityField(Pods, q.pods)
    ensures Fields(q)[5] == QuantityField(Services, q.services)
    ensures Fields(q)[6] == QuantityField(ConfigMaps, q.configMaps)
    ensures Fields(q)[7] == QuantityField(Secrets, q.secrets)
    ensures Fields(q)[8] == QuantityField(PersistentVolumeClaims, q.persistentVolumeClaims)
    ensures Fields(q)[9] == QuantityField(NvidiaGpu, q.nvidiaGPU)
  {
  }

  /** quotaHardToResourceList. */
  method QuotaHardToResourceList(q: QuotaHard, valid: ValidQuantity) returns (r: Result<ResourceList, Error>)
    ensures r == ResourceListOf(q, valid)
  {
    ghost var fs := Fields(Trimmed(q));
    FieldsInOrder(Trimmed(q));
    var out: ResourceList := map[];
    var err: Option<Error>;
    out, err := PutQuantity(out, RequestsCpu, q.requestsCPU, valid, fs, 0);
    if err.Some? { return Failure(err.value); }
    out, err := PutQuantity(out, RequestsMemory, q.requestsMemory, valid, fs, 1);
    if err.Some? { return Failure(err.value); }
    out, err := PutQuantity(out, LimitsCpu, q.limitsCPU, valid, fs, 2);
    if err.Some? { return Failure(err.value); }
    out, err := PutQuantity(out, LimitsMemory, q.limitsMemory, valid, fs, 3);
    if err.Some? { return Failure(err.value); }
    out, err := PutQuantity(out, Pods, q.pods, valid, fs, 4);
    if err.Some? { return Failure(err.value); }
    out, err := PutQuantity(out, Services, q.services, valid, fs, 5);
    if err.Some? { return Failure(err.value); }
    out, err := PutQuantity(out, ConfigMaps, q.configMaps, valid, fs, 6);
    if err.Some? { return Failure(err.value); }
    out, err := PutQuantity(out, Secrets, q.secrets, valid, fs, 7);
    if err.Some? { return Failure(err.value); }
    out, err := PutQuantity(out, PersistentVolumeClaims, q.persistentVolumeClaims, valid, fs, 8);
    if err.Some? { return Failure(err.value); }
    if TrimSpace(q.nvidiaGPU) != "" {
      out, err := PutQuantity(out, NvidiaGpu, q.nvidiaGPU, valid, fs, 9);
      if err.Some? { return Failure(err.value); }
    }
    return Success(out);
  }

  /** The hard-limit computation inside ensureResourceQuota's closure. */
  method ResourceQuotaHard(spec: BaselineSpec, valid: ValidQuantity) returns (r: Result<ResourceList, Error>)
    ensures r == QuotaHardFor(spec, valid)
  {
    var hard: ResourceList := map[];
    if spec.tenantObj.Some? {
      var sel := SelectQuotaHard(spec.tenantObj, spec.env);
      if sel.1 {
        var rl := QuotaHardToResourceList(sel.0, valid);
        if rl.Failure? {
          return Failure(rl.error);
        }
        hard := rl.value;
      }
    }
    if |hard| == 0 {
      hard := DefaultGlobalQuota;
    }
    return Success(hard);
  }

  /** Copies every entry of m over out (one of mergeLabels' loops). */
  method CopyEntries(out: Labels, m: Labels) returns (r: Labels)
    ensures r == out + m
  {
    r := out;
    var todo := m.Keys;
    while todo != {}
      invariant todo <= m.Keys
      invariant forall k :: k in r <==> k in out || (k in m && k !in todo)
      invariant forall k :: k in r ==> r[k] == if k in m && k !in todo then m[k] else out[k]
      decreases todo
    {
      var k :| k in todo;
      r := r[k := m[k]];
      todo := todo - {k};
    }
    assert r == out + m;
  }

  /** mergeLabels: the union of both maps, src winning on shared keys. */
  method MergeLabels(dst: Labels, src: Labels) returns (out: Labels)
    ensures out.Keys == dst.Keys + src.Keys
    ensures forall k :: k in src ==> out[k] == src[k]
    ensures forall k :: k in dst && k !in src ==> out[k] == dst[k]
  {
    out := CopyEntries(map[], dst);
    out := CopyEntries(out, src);
  }

  /** ensureBaselineMeta. */
  method EnsureBaselineMeta(labels: Labels, ownerGroup: string, requestName: string, o: KubeObject)
    returns (o': KubeObject)
    ensures o'.labels.Keys == o.labels.Keys + labels.Keys
    ensures forall k :: k in labels ==> o'.labels[k] == labels[k]
    ensures forall k :: k in o.labels && k !in labels ==> o'.labels[k] == o.labels[k]
    ensures o' == BaselineMeta(labels, ownerGroup, requestName, o)
  {
    var merged := MergeLabels(o.labels, labels);
    assert merged == o.labels + labels;
    var ann := o.annotations;
    ann := ann[AnnOwnerGroupRaw := ownerGroup];
    ann := ann[AnnRequestRaw := requestName];
    o' := o.(labels := merged, annotations := ann);
  }

  /** What the ensure functions compute from the spec before touching the store: the
      labels of baselineLabels and the hard limits of ensureResourceQuota's closure. Both
      are pure, so computing them once gives what each closure computes. */
  method BuildPlan(sha1: Sha1, valid: ValidQuantity, spec: BaselineSpec) returns (plan: Plan)
    ensures plan == PlanFor(sha1, valid, spec)
  {
    var labels := BaselineLabels(sha1, spec);
    var hard := ResourceQuotaHard(spec, valid);
    plan := Plan(labels, spec.ownerGroup, spec.requestName, spec.tenant + ":ns-admin", hard);
  }

  /** The mutate closures of the seven ensure functions. */
  method Mutate(plan: Plan, step: Step, o: KubeObject) returns (r: Result<KubeObject, Error>)
    ensures r == Mutated(plan, step, o)
  {
    var m := EnsureBaselineMeta(plan.labels, plan.ownerGroup, plan.requestName, o);
    match step
    case OwnerBinding =>
      r := Success(m.(body := RoleBindingBody(plan.ownerGroup, EditRole)));
    case AdminBinding =>
      r := Success(m.(body := RoleBindingBody(plan.adminGroup, EditRole)));
    case Quota =>
      if plan.quotaHard.Failure? {
        return Failure(plan.quotaHard.error);
      }
      r := Success(m.(body := ResourceQuotaBody(plan.quotaHard.value)));
    case LimitRange =>
      r := Success(m.(body := LimitRangeBody(LimitDefaultRequest, LimitDefault)));
    case DenyPolicy =>
      r := Success(m.(body := NetworkPolicyBody(DenyAll)));
    case DnsPolicy =>
      r := Success(m.(body := NetworkPolicyBody(AllowDnsEgress)));
    case SameNamespacePolicy =>
      r := Success(m.(body := NetworkPolicyBody(AllowSameNamespace)));
  }

  /** controllerutil.CreateOrUpdate for one step. */
  method CreateOrUpdate(c: Cluster, plan: Plan, ns: string, step: Step, fault: StepFault)
    returns (err: Option<Error>)
    modifies c
    ensures (c.State(), err) == Upserted(old(c.State()), plan, ns, step, fault)
  {
    var key := StepKey(ns, step);
    var read := c.GetObject(key, fault.onGet);
    if read.ReadFailed? {
      return Some(read.error);
    }
    var cur := if read.Found? then read.value else EmptyObject;
    var m := Mutate(plan, step, cur);
    if m.Failure? {
      return Some(m.error);
    }
    if read.Absent? {
      err := c.CreateObject(key, m.value, fault.onWrite);
    } else if m.value != cur {
      err := c.UpdateObject(key, m.value, fault.onWrite);
    } else {
      err := None;
    }
  }

  /** ensureNetworkPolicies: default deny, DNS egress, same-namespace traffic. Each
      ensure function is CreateOrUpdate of its step's object. */
  method EnsureNetworkPolicies(c: Cluster, plan: Plan, ns: string, faults: StepFaults) returns (err: Option<Error>)
    modifies c
    ensures (c.State(), err) == PoliciesEnsured(old(c.State()), plan, ns, faults)
  {
    err := CreateOrUpdate(c, plan, ns, DenyPolicy, FaultOf(faults, DenyPolicy));
    if err.Some? { return; }
    err := CreateOrUpdate(c, plan, ns, DnsPolicy, FaultOf(faults, DnsPolicy));
    if err.Some? { return; }
    err := CreateOrUpdate(c, plan, ns, SameNamespacePolicy, FaultOf(faults, SameNamespacePolicy));
  }

  /** The body of EnsureBaseline once the plan is known: the ensure functions in order,
      a failure wrapped with its step's context. */
  method EnsureBaselineObjects(c: Cluster, plan: Plan, ns: string, faults: StepFaults) returns (err: Option<Error>)
    modifies c
    ensures (c.State(), err) == BaselineEnsured(old(c.State()), plan, ns, faults)
  {
    err := CreateOrUpdate(c, plan, ns, OwnerBinding, FaultOf(faults, OwnerBinding));
    if err.Some? {
      return Some(Wrapped("ensure owner edit rolebinding", err.value));
    }
    err := CreateOrUpdate(c, plan, ns, AdminBinding, FaultOf(faults, AdminBinding));
    if err.Some? {
      return Some(Wrapped("ensure tenant admin rolebinding", err.value));
    }
    err := CreateOrUpdate(c, plan, ns, Quota, FaultOf(faults, Quota));
    if err.Some? {
      return Some(Wrapped("ensure resourcequota", err.value));
    }
    err := CreateOrUpdate(c, plan, ns, LimitRange, FaultOf(faults, LimitRange));
    if err.Some? {
      return Some(Wrapped("ensure limitrange", err.value));
    }
    err := EnsureNetworkPolicies(c, plan, ns, faults);
    if err.Some? {
      return Some(Wrapped("ensure networkpolicies", err.value));
    }
  }

  /** EnsureBaseline. */
  method EnsureBaseline(c: Cluster, sha1: Sha1, valid: ValidQuantity, ns: string, spec: BaselineSpec,
                        faults: StepFaults) returns (err: Option<Error>)
    modifies c
    ensures (c.State(), err) == BaselineEnsured(old(c.State()), PlanFor(sha1, valid, spec), ns, faults)
  {
    var plan := BuildPlan(sha1, valid, spec);
    err := EnsureBaselineObjects(c, plan, ns, faults);
  }

  // ---------------------------------------------------------------------------------
  // The hard limits

  /** A field is set when its trimmed text is not blank. */
  predicate IsSet(f: QuantityField) {
    f.text != ""
  }

  /** A set field that resource.ParseQuantity rejects. */
  predicate IsBad(f: QuantityField, valid: ValidQuantity) {
    IsSet(f) && !valid(f.text)
  }

  /** The resources of the set fields from index k on. */
  function SetFrom(fs: seq<QuantityField>, k: nat): set<Resource> {
    set i | k <= i < |fs| && IsSet(fs[i]) :: fs[i].resource
  }

  /** No two fields limit the same resource. */
  predicate Distinct(fs: seq<QuantityField>) {
    forall i, j :: 0 <= i < j < |fs| ==> fs[i].resource != fs[j].resource
  }

  /** The resources a QuotaHard can limit. */
  const QuotaResources: set<Resource> :=
    {RequestsCpu, RequestsMemory, LimitsCpu, LimitsMemory, Pods, Services, ConfigMaps, Secrets,
     PersistentVolumeClaims, NvidiaGpu}

  /** The ten fields limit ten distinct resources, all of QuotaResources. */
  lemma FieldsDistinct(q: QuotaHard)
    ensures Distinct(Fields(q))
    ensures forall i :: 0 <= i < |Fields(q)| ==> Fields(q)[i].resource in QuotaResources
  {
  }

  /** The puts fail exactly when some field is malformed. */
  lemma {:induction false} PutFromFails(out: ResourceList, fs: seq<QuantityField>, k: nat, valid: ValidQuantity)
    ensures PutFrom(out, fs, k, valid).Failure? <==> exists i :: k <= i < |fs| && IsBad(fs[i], valid)
    decreases |fs| - k
  {
    if k < |fs| {
      match Put(out, fs[k].resource, fs[k].text, valid)
      case Failure(e) =>
        assert IsBad(fs[k], valid);
      case Success(o) =>
        assert !IsBad(fs[k], valid);
        PutFromFails(o, fs, k + 1, valid);
    }
  }

  /** A failure names the first malformed field, with its trimmed text. */
  lemma {:induction false} PutFromFirstBad(out: ResourceList, fs: seq<QuantityField>, k: nat, valid: ValidQuantity)
    ensures var r := PutFrom(out, fs, k, valid);
      r.Failure? ==> exists j :: (k <= j < |fs| && IsBad(fs[j], valid)
                                  && (forall i :: k <= i < j ==> !IsBad(fs[i], valid))
                                  && r.error == InvalidQuantity(fs[j].resource, fs[j].text))
    decreases |fs| - k
  {
    if k < |fs| {
      match Put(out, fs[k].resource, fs[k].text, valid)
      case Failure(e) =>
        assert IsBad(fs[k], valid);
      case Success(o) =>
        PutFromFirstBad(o, fs, k + 1, valid);
    }
  }

  /** Blank fields leave the list as it is. */
  lemma {:induction false} PutFromSkipsBlanks(out: ResourceList, fs: seq<QuantityField>, k: nat, j: nat, valid: ValidQuantity)
    requires k <= j <= |fs|
    requires forall i :: k <= i < j ==> !IsSet(fs[i])
    ensures PutFrom(out, fs, k, valid) == PutFrom(out, fs, j, valid)
    decreases j - k
  {
    if k < j {
      PutFromSkipsBlanks(out, fs, k + 1, j, valid);
    }
  }

  /** On success the list holds the keys it started with and the set fields' resources. */
  lemma {:induction false} PutFromKeys(out: ResourceList, fs: seq<QuantityField>, k: nat, valid: ValidQuantity)
    ensures var r := PutFrom(out, fs, k, valid);
      r.Success? ==> r.value.Keys == out.Keys + SetFrom(fs, k)
    decreases |fs| - k
  {
    if k < |fs| {
      match Put(out, fs[k].resource, fs[k].text, valid)
      case Failure(e) =>
      case Success(o) =>
        PutFromKeys(o, fs, k + 1, valid);
        assert SetFrom(fs, k) == (if IsSet(fs[k]) then {fs[k].resource} else {}) + SetFrom(fs, k + 1);
    }
  }

  /** On success every entry of a resource no later field sets is kept. */
  lemma {:induction false} PutFromKeeps(out: ResourceList, fs: seq<QuantityField>, k: nat, valid: ValidQuantity)
    ensures var r := PutFrom(out, fs, k, valid);
      r.Success? ==> forall n :: n in out && n !in SetFrom(fs, k) ==> n in r.value && r.value[n] == out[n]
    decreases |fs| - k
  {
    if k < |fs| {
      match Put(out, fs[k].resource, fs[k].text, valid)
      case Failure(e) =>
      case Success(o) =>
        PutFromKeeps(o, fs, k + 1, valid);
        assert SetFrom(fs, k + 1) <= SetFrom(fs, k);
    }
  }

  /** On success every set field is stored under its resource with its text. */
  lemma {:induction false} PutFromValues(out: ResourceList, fs: seq<QuantityField>, k: nat, valid: ValidQuantity)
    requires Distinct(fs)
    ensures var r := PutFrom(out, fs, k, valid);
      r.Success? ==> forall i :: k <= i < |fs| && IsSet(fs[i]) ==>
        fs[i].resource in r.value && r.value[fs[i].resource] == fs[i].text
    decreases |fs| - k
  {
    if k < |fs| {
      match Put(out, fs[k].resource, fs[k].text, valid)
      case Failure(e) =>
      case Success(o) =>
        PutFromValues(o, fs, k + 1, valid);
        if IsSet(fs[k]) {
          assert fs[k].resource !in SetFrom(fs, k + 1);
          PutFromKeeps(o, fs, k + 1, valid);
        }
    }
  }

  /** quotaHardToResourceList: the first malformed field in the fixed order is an error
      naming its resource and trimmed text; otherwise the list holds exactly the resources
      of the fields that are not blank after trimming, each with its trimmed text, and no
      resource outside the ten a QuotaHard names. */
  lemma ResourceListMeaning(q: QuotaHard, valid: ValidQuantity)
    ensures var r := ResourceListOf(q, valid);
      var fs := Fields(Trimmed(q));
      && (r.Failure? <==> exists j :: 0 <= j < |fs| && IsBad(fs[j], valid))
      && (r.Failure? ==> exists j :: (0 <= j < |fs| && IsBad(fs[j], valid)
                                      && (forall i :: 0 <= i < j ==> !IsBad(fs[i], valid))
                                      && r.error == InvalidQuantity(fs[j].resource, fs[j].text)))
      && (r.Success? ==> r.value.Keys == SetFrom(fs, 0) && r.value.Keys <= QuotaResources)
      && (r.Success? ==> forall i :: 0 <= i < |fs| && IsSet(fs[i]) ==>
            fs[i].resource in r.value && r.value[fs[i].resource] == fs[i].text)
  {
    var fs := Fields(Trimmed(q));
    FieldsDistinct(Trimmed(q));
    PutFromFails(map[], fs, 0, valid);
    PutFromFirstBad(map[], fs, 0, valid);
    PutFromKeys(map[], fs, 0, valid);
    PutFromValues(map[], fs, 0, valid);
  }

  /** The quota ensureResourceQuota selects: the environment's override when the tenant has
      one, the tenant default otherwise. */
  function SelectedQuota(quota: QuotaSpec, env: string): QuotaHard {
    if env in quota.byEnv then quota.byEnv[env] else quota.defaultHard
  }

  /** The hard limits of the ResourceQuota: with no tenant quota, the global table; with one,
      the list of the selected quota or its error, or the global table when that list is
      empty; never a mix of the two, and never empty. */
  lemma QuotaHardForSelection(spec: BaselineSpec, valid: ValidQuantity)
    ensures var r := QuotaHardFor(spec, valid);
      && (r.Success? ==> |r.value| > 0)
      && (spec.tenantObj.None? || spec.tenantObj.value.quota.None? ==> r == Success(DefaultGlobalQuota))
      && (spec.tenantObj.Some? && spec.tenantObj.value.quota.Some? ==>
            var rl := ResourceListOf(SelectedQuota(spec.tenantObj.value.quota.value, spec.env), valid);
            && (rl.Failure? ==> r == rl)
            && (rl.Success? ==> r.Success? && (r.value == rl.value || r.value == DefaultGlobalQuota)))
  {
    assert RequestsCpu in DefaultGlobalQuota;
  }

  /** The global table applies exactly when the selected quota sets no field. */
  lemma QuotaHardForFallback(spec: BaselineSpec, valid: ValidQuantity)
    requires spec.tenantObj.Some? && spec.tenantObj.value.quota.Some?
    ensures var fs := Fields(Trimmed(SelectedQuota(spec.tenantObj.value.quota.value, spec.env)));
      var r := QuotaHardFor(spec, valid);
      && (r.Success? && SetFrom(fs, 0) == {} ==> r.value == DefaultGlobalQuota)
      && (r.Success? && SetFrom(fs, 0) != {} ==> r.value.Keys == SetFrom(fs, 0))
  {
    var q := SelectedQuota(spec.tenantObj.value.quota.value, spec.env);
    PutFromKeys(map[], Fields(Trimmed(q)), 0, valid);
    assert QuotaHardFor(spec, valid) == (match ResourceListOf(q, valid)
      case Failure(e) => Failure(e)
      case Success(hard) => Success(if |hard| == 0 then DefaultGlobalQuota else hard));
  }

  /** The nvidia.com/gpu guard of quotaHardToResourceList changes nothing: put skips a
      blank value by itself, so a quota whose only set field is the GPU count yields it. */
  lemma GpuOnlyQuota(q: QuotaHard, valid: ValidQuantity)
    requires forall i :: 0 <= i < 9 ==> !IsSet(Fields(Trimmed(q))[i])
    requires TrimSpace(q.nvidiaGPU) != "" && valid(TrimSpace(q.nvidiaGPU))
    ensures ResourceListOf(q, valid) == Success(map[NvidiaGpu := TrimSpace(q.nvidiaGPU)])
  {
    var fs := Fields(Trimmed(q));
    var m := map[NvidiaGpu := TrimSpace(q.nvidiaGPU)];
    FieldsInOrder(Trimmed(q));
    PutFromSkipsBlanks(map[], fs, 0, 9, valid);
    assert PutFrom(m, fs, 10, valid) == Success(m);
  }

  // ---------------------------------------------------------------------------------
  // The objects

  /** ensureBaselineMeta is idempotent. */
  lemma BaselineMetaIdempotent(labels: Labels, ownerGroup: string, requestName: string, o: KubeObject)
    ensures var m := BaselineMeta(labels, ownerGroup, requestName, o);
      BaselineMeta(labels, ownerGroup, requestName, m) == m
  {
    var m := BaselineMeta(labels, ownerGroup, requestName, o);
    assert m.labels + labels == m.labels;
    assert m.annotations[AnnOwnerGroupRaw := ownerGroup][AnnRequestRaw := requestName] == m.annotations;
  }

  /** A mutate closure fails only for the quota, when its hard limits are malformed; when it
      succeeds the object carries every baseline label, keeps its other labels and
      annotations, records the raw owner group and request name, and has the step's spec.
      Mutating the result again changes nothing, so CreateOrUpdate then skips the Update. */
  lemma MutatedMeaning(plan: Plan, step: Step, o: KubeObject)
    ensures var r := Mutated(plan, step, o);
      && (r.Failure? <==> step == Quota && plan.quotaHard.Failure?)
      && (r.Failure? ==> r.error == plan.quotaHard.error)
      && (r.Success? ==>
            && r.value.body == BodyFor(plan, step).value
            && r.value.labels.Keys == o.labels.Keys + plan.labels.Keys
            && (forall k :: k in plan.labels ==> r.value.labels[k] == plan.labels[k])
            && (forall k :: k in o.labels && k !in plan.labels ==> r.value.labels[k] == o.labels[k])
            && r.value.annotations.Keys == o.annotations.Keys + {AnnOwnerGroupRaw, AnnRequestRaw}
            && r.value.annotations[AnnOwnerGroupRaw] == plan.ownerGroup
            && r.value.annotations[AnnRequestRaw] == plan.requestName
            && (forall k :: k in o.annotations && k != AnnOwnerGroupRaw && k != AnnRequestRaw ==>
                  r.value.annotations[k] == o.annotations[k])
            && Mutated(plan, step, r.value) == r)
  {
    BaselineMetaIdempotent(plan.labels, plan.ownerGroup, plan.requestName, o);
  }

  /** The object of a step is stored and is a fixed point of the step's mutate closure. */
  predicate Settled(w: World, plan: Plan, ns: string, step: Step) {
    var key := StepKey(ns, step);
    key in w.objects && Mutated(plan, step, w.objects[key]) == Success(w.objects[key])
  }

  /** The seven objects are stored in distinct places. */
  lemma StepKeysDistinct(ns: string, s: Step, t: Step)
    ensures StepKey(ns, s) == StepKey(ns, t) <==> s == t
  {
  }

  /** CreateOrUpdate writes at most the object it is given the key of, and a failed call
      writes nothing; when the closure is idempotent, a call that succeeds leaves the stored
      object a fixed point of it. */
  lemma CreatedOrUpdatedMeaning(w: World, key: ObjectKey, mutate: KubeObject -> Result<KubeObject, Error>, fault: StepFault)
    requires forall o :: mutate(o).Success? ==> mutate(mutate(o).value) == mutate(o)
    ensures var r := CreatedOrUpdated(w, key, mutate, fault);
      && r.0.requests == w.requests && r.0.tenants == w.tenants && r.0.namespaces == w.namespaces
      && (forall other :: other != key ==> Untouched(w, r.0, other))
      && (r.1.Some? ==> r.0 == w)
      && (r.1.None? ==> key in r.0.objects && mutate(r.0.objects[key]) == Success(r.0.objects[key]))
  {
  }

  /** CreateOrUpdate leaves every other object as it was. */
  lemma CreatedOrUpdatedUntouched(w: World, key: ObjectKey, mutate: KubeObject -> Result<KubeObject, Error>, fault: StepFault, other: ObjectKey)
    requires other != key
    ensures Untouched(w, CreatedOrUpdated(w, key, mutate, fault).0, other)
  {
  }

  /** One step touches its own object and nothing else; a failed step touches nothing; a
      successful one leaves its object settled. */
  lemma UpsertedMeaning(w: World, plan: Plan, ns: string, step: Step, fault: StepFault)
    ensures var r := Upserted(w, plan, ns, step, fault);
      && r.0.requests == w.requests && r.0.tenants == w.tenants && r.0.namespaces == w.namespaces
      && (forall key :: key != StepKey(ns, step) ==>
            (key in r.0.objects <==> key in w.objects)
            && (key in w.objects ==> r.0.objects[key] == w.objects[key]))
      && (r.1.Some? ==> r.0 == w)
      && (r.1.None? ==> Settled(r.0, plan, ns, step))
  {
    var mutate := o => Mutated(plan, step, o);
    forall o | mutate(o).Success? ensures mutate(mutate(o).value) == mutate(o) {
      MutatedMeaning(plan, step, o);
    }
    CreatedOrUpdatedMeaning(w, StepKey(ns, step), mutate, fault);
  }

  /** A settled object is left alone by a step on which nothing fails: no write happens. */
  lemma SettledIsNoop(w: World, plan: Plan, ns: string, step: Step)
    requires Settled(w, plan, ns, step)
    ensures Upserted(w, plan, ns, step, NoFault) == (w, None)
  {
  }

  /** A step keeps every other step's object settled. */
  lemma UpsertedKeepsSettled(w: World, plan: Plan, ns: string, step: Step, fault: StepFault, other: Step)
    requires Settled(w, plan, ns, other) && other != step
    ensures Settled(Upserted(w, plan, ns, step, fault).0, plan, ns, other)
  {
    UpsertedMeaning(w, plan, ns, step, fault);
    StepKeysDistinct(ns, step, other);
  }

  // ---------------------------------------------------------------------------------
  // The whole baseline

  /** Every object of the baseline is settled. */
  predicate AllSettled(w: World, plan: Plan, ns: string) {
    && Settled(w, plan, ns, OwnerBinding) && Settled(w, plan, ns, AdminBinding)
    && Settled(w, plan, ns, Quota) && Settled(w, plan, ns, LimitRange)
    && Settled(w, plan, ns, DenyPolicy) && Settled(w, plan, ns, DnsPolicy)
    && Settled(w, plan, ns, SameNamespacePolicy)
  }

  /** A step settles its object and keeps the settled ones settled. */
  lemma {:induction false} StepSettles(w: World, plan: Plan, ns: string, step: Step, fault: StepFault, done: set<Step>)
    requires forall s :: s in done ==> Settled(w, plan, ns, s)
    requires Upserted(w, plan, ns, step, fault).1.None?
    ensures forall s :: s in done + {step} ==> Settled(Upserted(w, plan, ns, step, fault).0, plan, ns, s)
  {
    UpsertedMeaning(w, plan, ns, step, fault);
    forall s | s in done && s != step
      ensures Settled(Upserted(w, plan, ns, step, fault).0, plan, ns, s)
    {
      UpsertedKeepsSettled(w, plan, ns, step, fault, s);
    }
  }

  /** After a successful ensureNetworkPolicies its three objects are settled, and so are the
      ones that were before. */
  lemma PoliciesEnsuredSettles(w: World, plan: Plan, ns: string, faults: StepFaults, done: set<Step>)
    requires forall s :: s in done ==> Settled(w, plan, ns, s)
    ensures var r := PoliciesEnsured(w, plan, ns, faults);
      r.1.None? ==> forall s :: s in done + {DenyPolicy, DnsPolicy, SameNamespacePolicy} ==> Settled(r.0, plan, ns, s)
  {
    var p0 := Upserted(w, plan, ns, DenyPolicy, FaultOf(faults, DenyPolicy));
    if p0.1.Some? { return; }
    StepSettles(w, plan, ns, DenyPolicy, FaultOf(faults, DenyPolicy), done);
    var p1 := Upserted(p0.0, plan, ns, DnsPolicy, FaultOf(faults, DnsPolicy));
    if p1.1.Some? { return; }
    StepSettles(p0.0, plan, ns, DnsPolicy, FaultOf(faults, DnsPolicy), done + {DenyPolicy});
    var p2 := Upserted(p1.0, plan, ns, SameNamespacePolicy, FaultOf(faults, SameNamespacePolicy));
    if p2.1.Some? { return; }
    StepSettles(p1.0, plan, ns, SameNamespacePolicy, FaultOf(faults, SameNamespacePolicy), done + {DenyPolicy, DnsPolicy});
    assert done + {DenyPolicy, DnsPolicy} + {SameNamespacePolicy} == done + {DenyPolicy, DnsPolicy, SameNamespacePolicy};
  }

  /** The first three steps of EnsureBaseline, when they succeed, settle their objects. */
  lemma FirstStepsSettle(w: World, plan: Plan, ns: string, faults: StepFaults)
    ensures var r0 := Upserted(w, plan, ns, OwnerBinding, FaultOf(faults, OwnerBinding));
      var r1 := Upserted(r0.0, plan, ns, AdminBinding, FaultOf(faults, AdminBinding));
      var r2 := Upserted(r1.0, plan, ns, Quota, FaultOf(faults, Quota));
      r0.1.None? && r1.1.None? && r2.1.None? ==>
        forall s :: s in {OwnerBinding, AdminBinding, Quota} ==> Settled(r2.0, plan, ns, s)
  {
    var r0 := Upserted(w, plan, ns, OwnerBinding, FaultOf(faults, OwnerBinding));
    if r0.1.Some? { return; }
    StepSettles(w, plan, ns, OwnerBinding, FaultOf(faults, OwnerBinding), {});
    var r1 := Upserted(r0.0, plan, ns, AdminBinding, FaultOf(faults, AdminBinding));
    if r1.1.Some? { return; }
    StepSettles(r0.0, plan, ns, AdminBinding, FaultOf(faults, AdminBinding), {OwnerBinding});
    var r2 := Upserted(r1.0, plan, ns, Quota, FaultOf(faults, Quota));
    if r2.1.Some? { return; }
    StepSettles(r1.0, plan, ns, Quota, FaultOf(faults, Quota), {OwnerBinding, AdminBinding});
  }

  /** After a successful EnsureBaseline all seven objects are stored, each with the baseline
      labels, the raw annotations and its step's spec. */
  lemma BaselineEnsuredSettles(w: World, plan: Plan, ns: string, faults: StepFaults)
    ensures var r := BaselineEnsured(w, plan, ns, faults);
      r.1.None? ==> AllSettled(r.0, plan, ns)
  {
    var r0 := Upserted(w, plan, ns, OwnerBinding, FaultOf(faults, OwnerBinding));
    var r1 := Upserted(r0.0, plan, ns, AdminBinding, FaultOf(faults, AdminBinding));
    var r2 := Upserted(r1.0, plan, ns, Quota, FaultOf(faults, Quota));
    if r0.1.Some? || r1.1.Some? || r2.1.Some? { return; }
    FirstStepsSettle(w, plan, ns, faults);
    var r3 := Upserted(r2.0, plan, ns, LimitRange, FaultOf(faults, LimitRange));
    if r3.1.Some? { return; }
    var done := {OwnerBinding, AdminBinding, Quota, LimitRange};
    StepSettles(r2.0, plan, ns, LimitRange, FaultOf(faults, LimitRange), {OwnerBinding, AdminBinding, Quota});
    assert {OwnerBinding, AdminBinding, Quota} + {LimitRange} == done;
    PoliciesEnsuredSettles(r3.0, plan, ns, faults, done);
  }

  /** On a settled namespace EnsureBaseline with no failing call writes nothing. */
  lemma SettledBaselineIsNoop(w: World, plan: Plan, ns: string)
    requires AllSettled(w, plan, ns)
    ensures BaselineEnsured(w, plan, ns, NoFaults) == (w, None)
  {
    SettledIsNoop(w, plan, ns, OwnerBinding);
    SettledIsNoop(w, plan, ns, AdminBinding);
    SettledIsNoop(w, plan, ns, Quota);
    SettledIsNoop(w, plan, ns, LimitRange);
    SettledIsNoop(w, plan, ns, DenyPolicy);
    SettledIsNoop(w, plan, ns, DnsPolicy);
    SettledIsNoop(w, plan, ns, SameNamespacePolicy);
  }

  /** EnsureBaseline is idempotent: once it has succeeded, running it again with no failing
      call succeeds and changes nothing, not even the write log. */
  lemma BaselineIdempotent(w: World, plan: Plan, ns: string, faults: StepFaults)
    ensures var r := BaselineEnsured(w, plan, ns, faults);
      r.1.None? ==> BaselineEnsured(r.0, plan, ns, NoFaults) == (r.0, None)
  {
    var r := BaselineEnsured(w, plan, ns, faults);
    BaselineEnsuredSettles(w, plan, ns, faults);
    if r.1.None? {
      SettledBaselineIsNoop(r.0, plan, ns);
    }
  }

  /** Nothing outside the namespace's own objects differs between two states. */
  ghost predicate SameOutside(w: World, w': World, ns: string) {
    && w'.requests == w.requests && w'.tenants == w.tenants && w'.namespaces == w.namespaces
    && forall key: ObjectKey :: key.namespace != ns ==>
         (key in w'.objects <==> key in w.objects) && (key in w.objects ==> w'.objects[key] == w.objects[key])
  }

  /** An object is untouched between two states. */
  predicate Untouched(w: World, w': World, key: ObjectKey) {
    (key in w'.objects <==> key in w.objects) && (key in w.objects ==> w'.objects[key] == w.objects[key])
  }

  /** SameOutside composes over consecutive states. */
  lemma SameOutsideTransitive(w: World, w': World, w'': World, ns: string)
    requires SameOutside(w, w', ns) && SameOutside(w', w'', ns)
    ensures SameOutside(w, w'', ns)
  {
  }

  /** One upsert in a namespace touches nothing outside it. */
  lemma UpsertedSameOutside(w: World, plan: Plan, ns: string, step: Step, fault: StepFault)
    ensures SameOutside(w, Upserted(w, plan, ns, step, fault).0, ns)
  {
    UpsertedMeaning(w, plan, ns, step, fault);
  }

  /** ensureNetworkPolicies touches nothing outside the namespace. */
  lemma PoliciesSameOutside(w: World, plan: Plan, ns: string, faults: StepFaults)
    ensures SameOutside(w, PoliciesEnsured(w, plan, ns, faults).0, ns)
  {
    var p0 := Upserted(w, plan, ns, DenyPolicy, FaultOf(faults, DenyPolicy));
    UpsertedSameOutside(w, plan, ns, DenyPolicy, FaultOf(faults, DenyPolicy));
    var p1 := Then(p0, plan, ns, DnsPolicy, faults);
    UpsertedSameOutside(p0.0, plan, ns, DnsPolicy, FaultOf(faults, DnsPolicy));
    SameOutsideTransitive(w, p0.0, p1.0, ns);
    var p2 := Then(p1, plan, ns, SameNamespacePolicy, faults);
    UpsertedSameOutside(p1.0, plan, ns, SameNamespacePolicy, FaultOf(faults, SameNamespacePolicy));
    SameOutsideTransitive(w, p1.0, p2.0, ns);
  }

  /** EnsureBaseline, failing or not, changes only objects in the namespace it provisions:
      no request, tenant, namespace or object elsewhere. */
  lemma BaselineSameOutside(w: World, plan: Plan, ns: string, faults: StepFaults)
    ensures SameOutside(w, BaselineEnsured(w, plan, ns, faults).0, ns)
  {
    var r0 := Upserted(w, plan, ns, OwnerBinding, FaultOf(faults, OwnerBinding));
    UpsertedSameOutside(w, plan, ns, OwnerBinding, FaultOf(faults, OwnerBinding));
    if r0.1.Some? { return; }
    var r1 := Upserted(r0.0, plan, ns, AdminBinding, FaultOf(faults, AdminBinding));
    UpsertedSameOutside(r0.0, plan, ns, AdminBinding, FaultOf(faults, AdminBinding));
    SameOutsideTransitive(w, r0.0, r1.0, ns);
    if r1.1.Some? { return; }
    var r2 := Upserted(r1.0, plan, ns, Quota, FaultOf(faults, Quota));
    UpsertedSameOutside(r1.0, plan, ns, Quota, FaultOf(faults, Quota));
    SameOutsideTransitive(w, r1.0, r2.0, ns);
    if r2.1.Some? { return; }
    var r3 := Upserted(r2.0, plan, ns, LimitRange, FaultOf(faults, LimitRange));
    UpsertedSameOutside(r2.0, plan, ns, LimitRange, FaultOf(faults, LimitRange));
    SameOutsideTransitive(w, r2.0, r3.0, ns);
    if r3.1.Some? { return; }
    PoliciesSameOutside(r3.0, plan, ns, faults);
    SameOutsideTransitive(w, r3.0, PoliciesEnsured(r3.0, plan, ns, faults).0, ns);
  }

  /** Malformed tenant quantities stop EnsureBaseline at the quota: the run fails, within
      the bindings or the quota step, and neither the LimitRange nor any NetworkPolicy is
      written. When the quota step gets past its Get, the error is the malformed quantity. */
  lemma QuotaErrorStopsBaseline(w: World, plan: Plan, ns: string, faults: StepFaults)
    requires plan.quotaHard.Failure?
    ensures var r := BaselineEnsured(w, plan, ns, faults);
      && r.1.Some? && r.1.value.Wrapped?
      && r.1.value.context in {StepContext(OwnerBinding), StepContext(AdminBinding), StepContext(Quota)}
      && (r.1.value.context == StepContext(Quota) && FaultOf(faults, Quota).onGet.None? ==>
            r.1.value.inner == plan.quotaHard.error)
      && (forall step :: step != OwnerBinding && step != AdminBinding && step != Quota ==>
            Untouched(w, r.0, StepKey(ns, step)))
  {
    var r0 := Upserted(w, plan, ns, OwnerBinding, FaultOf(faults, OwnerBinding));
    var r1 := Upserted(r0.0, plan, ns, AdminBinding, FaultOf(faults, AdminBinding));
    var r2 := Upserted(r1.0, plan, ns, Quota, FaultOf(faults, Quota));
    UpsertedFailureKeeps(w, plan, ns, OwnerBinding, FaultOf(faults, OwnerBinding));
    UpsertedFailureKeeps(r0.0, plan, ns, AdminBinding, FaultOf(faults, AdminBinding));
    UpsertedFailureKeeps(r1.0, plan, ns, Quota, FaultOf(faults, Quota));
    MutatedMeaning(plan, Quota, EmptyObject);
    if StepKey(ns, Quota) in r1.0.objects {
      MutatedMeaning(plan, Quota, r1.0.objects[StepKey(ns, Quota)]);
    }
    assert r2.1.Some?;
    forall step | step != OwnerBinding && step != AdminBinding && step != Quota
      ensures Untouched(w, BaselineEnsured(w, plan, ns, faults).0, StepKey(ns, step))
    {
      var key := StepKey(ns, step);
      StepKeysDistinct(ns, step, OwnerBinding);
      StepKeysDistinct(ns, step, AdminBinding);
      UpsertedUntouched(w, plan, ns, OwnerBinding, FaultOf(faults, OwnerBinding), key);
      UpsertedUntouched(r0.0, plan, ns, AdminBinding, FaultOf(faults, AdminBinding), key);
    }
  }

  /** A failed step changes nothing. */
  lemma UpsertedFailureKeeps(w: World, plan: Plan, ns: string, step: Step, fault: StepFault)
    ensures var r := Upserted(w, plan, ns, step, fault);
      r.1.Some? ==> r.0 == w
  {
  }

  /** A step leaves every other object as it was. */
  lemma UpsertedUntouched(w: World, plan: Plan, ns: string, step: Step, fault: StepFault, key: ObjectKey)
    requires key != StepKey(ns, step)
    ensures Untouched(w, Upserted(w, plan, ns, step, fault).0, key)
  {
    CreatedOrUpdatedUntouched(w, StepKey(ns, step), o => Mutated(plan, step, o), fault, key);
  }

  /** Where no client call fails, a step fails exactly when it is the quota step and the
      tenant's quantities are malformed. */
  lemma UpsertedWithoutFault(w: World, plan: Plan, ns: string, step: Step)
    ensures Upserted(w, plan, ns, step, NoFault).1.Some? <==> step == Quota && plan.quotaHard.Failure?
  {
    var key := StepKey(ns, step);
    if key in w.objects {
      MutatedMeaning(plan, step, w.objects[key]);
    } else {
      MutatedMeaning(plan, step, EmptyObject);
    }
  }

  /** Where no client call fails, EnsureBaseline fails exactly when the tenant's quantities
      are malformed. */
  lemma BaselineWithoutFaults(w: World, plan: Plan, ns: string)
    ensures BaselineEnsured(w, plan, ns, NoFaults).1.Some? <==> plan.quotaHard.Failure?
  {
    if plan.quotaHard.Failure? {
      QuotaErrorStopsBaseline(w, plan, ns, NoFaults);
    } else {
      var r0 := Upserted(w, plan, ns, OwnerBinding, NoFault);
      UpsertedWithoutFault(w, plan, ns, OwnerBinding);
      var r1 := Upserted(r0.0, plan, ns, AdminBinding, NoFault);
      UpsertedWithoutFault(r0.0, plan, ns, AdminBinding);
      var r2 := Upserted(r1.0, plan, ns, Quota, NoFault);
      UpsertedWithoutFault(r1.0, plan, ns, Quota);
      var r3 := Upserted(r2.0, plan, ns, LimitRange, NoFault);
      UpsertedWithoutFault(r2.0, plan, ns, LimitRange);
      var p0 := Upserted(r3.0, plan, ns, DenyPolicy, NoFault);
      UpsertedWithoutFault(r3.0, plan, ns, DenyPolicy);
      var p1 := Upserted(p0.0, plan, ns, DnsPolicy, NoFault);
      UpsertedWithoutFault(p0.0, plan, ns, DnsPolicy);
      UpsertedWithoutFault(p1.0, plan, ns, SameNamespacePolicy);
    }
  }
}
