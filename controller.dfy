/**
 * The provisioning reconciler (internal/controller/namespacerequest_controller.go): for one
 * NamespaceRequest it checks the tenant, ensures the namespace "<tenant>-<env>" with its
 * labels, lays down the baseline, and records the outcome in the request's status.
 * Every stage is a function on Worlds; the methods run the same stages against a Cluster
 * and are proved to end in the state, with the error, that the functions give.
 */
module Controller {
  import opened Wrappers
  import opened GoStrings
  import opened Fingerprint
  import opened Api
  import opened Store
  import opened Dns1123
  import opened Baseline
  import Admission

  /** The request label the reconciler puts on namespaces (a literal in the controller). */
  const LabelRequest: string := "guardian.io/request"

  /** Which client calls of one reconcile fail, and with what text. */
  datatype ReconcileFaults = ReconcileFaults(
    requestGet: Option<string>,
    tenantCheckGet: Option<string>,
    namespaceGet: Option<string>,
    namespaceWrite: Option<string>,
    tenantGet: Option<string>,
    baseline: StepFaults,
    statusUpdate: Option<string>)

  /** No client call fails. */
  const NoReconcileFaults: ReconcileFaults := ReconcileFaults(None, None, None, None, None, NoFaults, None)

  // ---------------------------------------------------------------------------------------
  // Namespace labels
  // ---------------------------------------------------------------------------------------

  /** desiredNSLabels: the existing labels with five of them overwritten. The tenant and env
      labels take the raw spec values (only an empty env is defaulted); the owner-group label
      is the fingerprint of the trimmed owner group. The name parameter of the Go function
      is unused and left out. */
  function DesiredLabels(sha1: Sha1, existing: Labels, nr: NamespaceRequest): Labels {
    existing[LabelTenant := nr.spec.tenant][LabelEnv := DefaultEnv(nr.spec.env)]
            [LabelOwnerGroup := ShortHash16(sha1, TrimSpace(nr.spec.ownerGroup))]
            [LabelManaged := "true"][LabelRequest := nr.name]
  }

  method DesiredNSLabels(sha1: Sha1, existing: Labels, nr: NamespaceRequest) returns (out: Labels)
    ensures out == DesiredLabels(sha1, existing, nr)
  {
    out := CopyEntries(map[], existing);
    assert out == existing;
    out := out[LabelTenant := nr.spec.tenant];
    out := out[LabelEnv := nr.spec.env];
    if out[LabelEnv] == "" {
      out := out[LabelEnv := EnvDev];
    }
    var ownerGroup := TrimSpace(nr.spec.ownerGroup);
    out := out[LabelOwnerGroup := ShortHash16(sha1, ownerGroup)];
    out := out[LabelManaged := "true"];
    out := out[LabelRequest := nr.name];
  }

  /** labelsEqual: the same size, and every entry of a is what b holds under that key, a
      missing key of b reading as "". */
  predicate Agree(a: Labels, b: Labels) {
    |a| == |b| && forall k :: k in a ==> Lookup(b, k) == a[k]
  }

  method LabelsEqual(a: Labels, b: Labels) returns (eq: bool)
    ensures eq == Agree(a, b)
  {
    if |a| != |b| {
      return false;
    }
    var todo := a.Keys;
    while todo != {}
      invariant todo <= a.Keys
      invariant forall k :: k in a && k !in todo ==> Lookup(b, k) == a[k]
      decreases todo
    {
      var k :| k in todo;
      if Lookup(b, k) != a[k] {
        return false;
      }
      todo := todo - {k};
    }
    return true;
  }

  // ---------------------------------------------------------------------------------------
  // Client steps
  // ---------------------------------------------------------------------------------------

  /** ensureTenantExists: an empty name, a missing tenant or a failed Get is an error. */
  function TenantCheck(w: World, tenant: string, fault: Option<string>): (err: Option<Error>) {
    if tenant == "" then Some(TenantEmpty)
    else match TenantIn(w, tenant, fault)
      case Found(_) => None
      case Absent => Some(NotFound(TenantResource, tenant))
      case ReadFailed(e) => Some(e)
  }

  method EnsureTenantExists(c: Cluster, tenant: string, fault: Option<string>) returns (err: Option<Error>)
    ensures err.None? <==> tenant != "" && fault.None? && tenant in c.State().tenants
    ensures err == TenantCheck(c.State(), tenant, fault)
  {
    if tenant == "" {
      return Some(TenantEmpty);
    }
    var read := c.GetTenant(tenant, fault);
    match read
    case Found(_) => err := None;
    case Absent => err := Some(NotFound(TenantResource, tenant));
    case ReadFailed(e) => err := Some(e);
  }

  /** The tenant the baseline is given: a failed Get is only logged and leaves the zero
      Tenant behind. */
  function TenantOrZero(w: World, tenant: string, fault: Option<string>): (t: Tenant)
    ensures fault.None? && tenant in w.tenants ==> t == w.tenants[tenant]
    ensures fault.Some? || tenant !in w.tenants ==> t == ZeroTenant
  {
    match TenantIn(w, tenant, fault)
    case Found(t) => t
    case _ => ZeroTenant
  }

  /** ensureNamespace: an existing namespace has its labels updated when they do not agree
      with the desired ones; an absent one is created with the desired labels; any other
      Get error is returned. */
  function NamespaceEnsured(w: World, sha1: Sha1, nsName: string, nr: NamespaceRequest,
                            getFault: Option<string>, writeFault: Option<string>): (World, Option<Error>) {
    match NamespaceIn(w, nsName, getFault)
    case ReadFailed(e) => (w, Some(e))
    case Found(labels) =>
      var desired := DesiredLabels(sha1, labels, nr);
      if !Agree(labels, desired) then NamespaceUpdated(w, nsName, desired, writeFault) else (w, None)
    case Absent => NamespaceCreated(w, nsName, DesiredLabels(sha1, map[], nr), writeFault)
  }

  method EnsureNamespace(c: Cluster, sha1: Sha1, nsName: string, nr: NamespaceRequest,
                         getFault: Option<string>, writeFault: Option<string>) returns (err: Option<Error>)
    modifies c
    ensures (c.State(), err) == NamespaceEnsured(old(c.State()), sha1, nsName, nr, getFault, writeFault)
  {
    var read := c.GetNamespace(nsName, getFault);
    match read
    case ReadFailed(e) =>
      err := Some(e);
    case Found(labels) =>
      var desired := DesiredNSLabels(sha1, labels, nr);
      var eq := LabelsEqual(labels, desired);
      if !eq {
        err := c.UpdateNamespace(nsName, desired, writeFault);
      } else {
        err := None;
      }
    case Absent =>
      var desired := DesiredNSLabels(sha1, map[], nr);
      err := c.CreateNamespace(nsName, desired, writeFault);
  }

  /** The request as setStatusFailed leaves it: phase, reason and message set. */
  function FailedRequest(nr: NamespaceRequest, reason: string, msg: string): NamespaceRequest {
    nr.(status := nr.status.(phase := Failed, reason := reason, message := msg))
  }

  /** The request as a successful reconcile leaves it. */
  function ProvisionedRequest(nr: NamespaceRequest, nsName: string): NamespaceRequest {
    nr.(status := Status(Provisioned, nsName, "", ""))
  }

  /** setStatusFailed: the status update's error is what the reconcile returns. */
  method SetStatusFailed(c: Cluster, nr: NamespaceRequest, reason: string, msg: string, fault: Option<string>)
    returns (err: Option<Error>)
    modifies c
    ensures (c.State(), err) == StatusUpdated(old(c.State()), FailedRequest(nr, reason, msg), fault)
  {
    var failed := nr.(status := nr.status.(phase := Failed));
    failed := failed.(status := failed.status.(reason := reason));
    failed := failed.(status := failed.status.(message := msg));
    err := c.UpdateStatus(failed, fault);
  }

  // ---------------------------------------------------------------------------------------
  // Reconcile, stage by stage
  // ---------------------------------------------------------------------------------------

  function TenantName(nr: NamespaceRequest): string {
    TrimSpace(nr.spec.tenant)
  }

  function EnvName(nr: NamespaceRequest): string {
    DefaultEnv(TrimSpace(nr.spec.env))
  }

  function NamespaceName(nr: NamespaceRequest): string {
    BuildNamespaceName(TenantName(nr), EnvName(nr))
  }

  /** The BaselineSpec the reconciler passes to EnsureBaseline. */
  function SpecFor(nr: NamespaceRequest, t: Tenant): BaselineSpec {
    BaselineSpec(TenantName(nr), EnvName(nr), TrimSpace(nr.spec.ownerGroup), nr.name, Some(t))
  }

  function PlanOf(w: World, sha1: Sha1, valid: ValidQuantity, nr: NamespaceRequest, f: ReconcileFaults): Plan {
    PlanFor(sha1, valid, SpecFor(nr, TenantOrZero(w, TenantName(nr), f.tenantGet)))
  }

  /** After the namespace: fetch the tenant, ensure the baseline, record the outcome. */
  function BaselineStage(w: World, sha1: Sha1, valid: ValidQuantity, nr: NamespaceRequest, nsName: string,
                         f: ReconcileFaults): (World, Option<Error>) {
    var b := BaselineEnsured(w, PlanOf(w, sha1, valid, nr, f), nsName, f.baseline);
    if b.1.Some? then StatusUpdated(b.0, FailedRequest(nr, "BaselineFailed", Message(b.1.value)), f.statusUpdate)
    else StatusUpdated(b.0, ProvisionedRequest(nr, nsName), f.statusUpdate)
  }

  /** After the tenant check: ensure the namespace, then the baseline. */
  function NamespaceStage(w: World, sha1: Sha1, valid: ValidQuantity, nr: NamespaceRequest,
                          f: ReconcileFaults): (World, Option<Error>) {
    var nsName := NamespaceName(nr);
    var n := NamespaceEnsured(w, sha1, nsName, nr, f.namespaceGet, f.namespaceWrite);
    if n.1.Some? then StatusUpdated(n.0, FailedRequest(nr, "NamespaceCreateFailed", Message(n.1.value)), f.statusUpdate)
    else BaselineStage(n.0, sha1, valid, nr, nsName, f)
  }

  /** A request that gets past the guards: the tenant check first. */
  function Provisioning(w: World, sha1: Sha1, valid: ValidQuantity, nr: NamespaceRequest,
                        f: ReconcileFaults): (World, Option<Error>) {
    var tenant := TenantName(nr);
    if TenantCheck(w, tenant, f.tenantCheckGet).Some? then
      StatusUpdated(w, FailedRequest(nr, "TenantNotFound", "tenant " + Quote(tenant) + " not found"), f.statusUpdate)
    else NamespaceStage(w, sha1, valid, nr, f)
  }

  /** A request that is Provisioned and names its namespace. */
  predicate IsDone(nr: NamespaceRequest) {
    nr.status.phase == Provisioned && nr.status.namespaceName != ""
  }

  /** Reconcile: a missing request is ignored, a failed Get returned; a request being deleted
      or already done is left alone. */
  function Reconciled(w: World, sha1: Sha1, valid: ValidQuantity, name: string,
                      f: ReconcileFaults): (World, Option<Error>) {
    match RequestIn(w, name, f.requestGet)
    case Absent => (w, None)
    case ReadFailed(e) => (w, Some(e))
    case Found(nr) =>
      if nr.deleting || IsDone(nr) then (w, None) else Provisioning(w, sha1, valid, nr, f)
  }

  method ProvisionBaseline(c: Cluster, sha1: Sha1, valid: ValidQuantity, nr: NamespaceRequest, nsName: string,
                           f: ReconcileFaults) returns (err: Option<Error>)
    modifies c
    ensures (c.State(), err) == BaselineStage(old(c.State()), sha1, valid, nr, nsName, f)
  {
    var tenant := TrimSpace(nr.spec.tenant);
    var read := c.GetTenant(tenant, f.tenantGet);
    var t := if read.Found? then read.value else ZeroTenant;
    var spec := BaselineSpec(tenant, EnvName(nr), TrimSpace(nr.spec.ownerGroup), nr.name, Some(t));
    err := EnsureBaseline(c, sha1, valid, nsName, spec, f.baseline);
    if err.Some? {
      err := SetStatusFailed(c, nr, "BaselineFailed", Message(err.value), f.statusUpdate);
      return;
    }
    var done := nr.(status := nr.status.(phase := Provisioned, namespaceName := nsName));
    done := done.(status := done.status.(reason := "", message := ""));
    err := c.UpdateStatus(done, f.statusUpdate);
  }

  method ProvisionNamespace(c: Cluster, sha1: Sha1, valid: ValidQuantity, nr: NamespaceRequest,
                            f: ReconcileFaults) returns (err: Option<Error>)
    modifies c
    ensures (c.State(), err) == NamespaceStage(old(c.State()), sha1, valid, nr, f)
  {
    var tenant := TrimSpace(nr.spec.tenant);
    var env := TrimSpace(nr.spec.env);
    if env == "" {
      env := EnvDev;
    }
    var nsName := BuildNamespaceName(tenant, env);
    err := EnsureNamespace(c, sha1, nsName, nr, f.namespaceGet, f.namespaceWrite);
    if err.Some? {
      err := SetStatusFailed(c, nr, "NamespaceCreateFailed", Message(err.value), f.statusUpdate);
      return;
    }
    err := ProvisionBaseline(c, sha1, valid, nr, nsName, f);
  }

  method Reconcile(c: Cluster, sha1: Sha1, valid: ValidQuantity, name: string, f: ReconcileFaults)
    returns (err: Option<Error>)
    modifies c
    ensures (c.State(), err) == Reconciled(old(c.State()), sha1, valid, name, f)
  {
    var read := c.GetRequest(name, f.requestGet);
    if read.Absent? {
      return None;
    }
    if read.ReadFailed? {
      return Some(read.error);
    }
    var nr := read.value;
    if nr.deleting {
      return None;
    }
    if nr.status.phase == Provisioned && nr.status.namespaceName != "" {
      return None;
    }
    var tenant := TrimSpace(nr.spec.tenant);
    err := EnsureTenantExists(c, tenant, f.tenantCheckGet);
    if err.Some? {
      err := SetStatusFailed(c, nr, "TenantNotFound", "tenant " + Quote(tenant) + " not found", f.statusUpdate);
      return;
    }
    err := ProvisionNamespace(c, sha1, valid, nr, f);
  }

  // ---------------------------------------------------------------------------------------
  // Properties
  // ---------------------------------------------------------------------------------------

  /** desiredNSLabels keeps every existing key and overwrites five: tenant, env (defaulted to
      "dev"), the owner-group fingerprint, managed and request. */
  lemma DesiredLabelsMeaning(sha1: Sha1, existing: Labels, nr: NamespaceRequest)
    ensures var d := DesiredLabels(sha1, existing, nr);
      && d.Keys == existing.Keys + {LabelTenant, LabelEnv, LabelOwnerGroup, LabelManaged, LabelRequest}
      && d[LabelTenant] == nr.spec.tenant
      && d[LabelEnv] == (if nr.spec.env == "" then EnvDev else nr.spec.env)
      && d[LabelOwnerGroup] == ShortHash16(sha1, nr.spec.ownerGroup)
      && |d[LabelOwnerGroup]| == 16
      && d[LabelManaged] == "true"
      && d[LabelRequest] == nr.name
      && (forall k :: k in existing && k !in {LabelTenant, LabelEnv, LabelOwnerGroup, LabelManaged, LabelRequest} ==>
            d[k] == existing[k])
  {
    ShortHashIgnoresSurroundingSpace(sha1, nr.spec.ownerGroup);
  }

  /** Computing the desired labels of desired labels changes nothing. */
  lemma DesiredLabelsIdempotent(sha1: Sha1, existing: Labels, nr: NamespaceRequest)
    ensures DesiredLabels(sha1, DesiredLabels(sha1, existing, nr), nr) == DesiredLabels(sha1, existing, nr)
  {
  }

  /** A subset as large as its superset is that superset. */
  lemma {:induction false} SubsetSize<T>(a: set<T>, b: set<T>)
    requires a <= b
    ensures |a| <= |b|
    ensures |a| == |b| ==> a == b
    decreases a
  {
    if a != {} {
      var x :| x in a;
      SubsetSize(a - {x}, b - {x});
    } else if b != {} {
      var y :| y in b;
      assert |b| >= 1;
    }
  }

  /** Equal label maps agree. */
  lemma EqualLabelsAgree(a: Labels)
    ensures Agree(a, a)
  {
  }

  /** labelsEqual is not map equality in general: a key of a holding "" agrees with a key
      missing from b. */
  lemma AgreeIsNotEquality()
    ensures var a := map["x" := ""]; var b := map["y" := "v"];
      Agree(a, b) && a != b
  {
    var a := map["x" := ""];
    var b := map["y" := "v"];
    assert "x" !in b;
    assert a["x"] != b["y"] || "y" !in a;
  }

  /** Against labels that hold every key of a, labelsEqual is map equality; the desired
      labels are such labels, so ensureNamespace writes exactly when they differ. */
  lemma AgreeWithSuperset(a: Labels, b: Labels)
    requires a.Keys <= b.Keys
    ensures Agree(a, b) <==> a == b
  {
    if Agree(a, b) {
      assert |a.Keys| == |a| && |b.Keys| == |b|;
      SubsetSize(a.Keys, b.Keys);
      assert a.Keys == b.Keys;
      forall k | k in a ensures a[k] == b[k] {
        assert Lookup(b, k) == a[k];
      }
    }
  }

  /** Against the desired labels labelsEqual is exact equality: the desired map holds every
      existing key. */
  lemma AgreeWithDesired(sha1: Sha1, existing: Labels, nr: NamespaceRequest)
    ensures Agree(existing, DesiredLabels(sha1, existing, nr)) <==> existing == DesiredLabels(sha1, existing, nr)
  {
    AgreeWithSuperset(existing, DesiredLabels(sha1, existing, nr));
  }

  /** ensureNamespace touches only the one namespace; on success it holds the desired labels
      computed from what was stored before (none when absent); a failed Get is returned and
      nothing is written; labels already as desired cause no write; and where no call fails
      it succeeds. */
  lemma NamespaceEnsuredMeaning(w: World, sha1: Sha1, nsName: string, nr: NamespaceRequest,
                                getFault: Option<string>, writeFault: Option<string>)
    ensures var r := NamespaceEnsured(w, sha1, nsName, nr, getFault, writeFault);
      var before := if nsName in w.namespaces then w.namespaces[nsName] else map[];
      && r.0.requests == w.requests && r.0.tenants == w.tenants && r.0.objects == w.objects
      && (forall n :: n != nsName ==>
            (n in r.0.namespaces <==> n in w.namespaces) && (n in w.namespaces ==> r.0.namespaces[n] == w.namespaces[n]))
      && (r.1.Some? ==> r.0 == w)
      && (getFault.Some? ==> r == (w, Some(ClientError(getFault.value))))
      && (r.1.None? ==> nsName in r.0.namespaces && r.0.namespaces[nsName] == DesiredLabels(sha1, before, nr))
      && (r.0.writes == w.writes <==>
            r.1.Some? || (nsName in w.namespaces && w.namespaces[nsName] == DesiredLabels(sha1, before, nr)))
      && (getFault.None? && writeFault.None? ==> r.1.None?)
  {
    if nsName in w.namespaces {
      AgreeWithDesired(sha1, w.namespaces[nsName], nr);
    }
  }

  /** Ensuring a namespace a second time, with no call failing, writes nothing. */
  lemma NamespaceEnsuredIdempotent(w: World, sha1: Sha1, nsName: string, nr: NamespaceRequest,
                                   getFault: Option<string>, writeFault: Option<string>)
    ensures var r := NamespaceEnsured(w, sha1, nsName, nr, getFault, writeFault);
      r.1.None? ==> NamespaceEnsured(r.0, sha1, nsName, nr, None, None) == (r.0, None)
  {
    var r := NamespaceEnsured(w, sha1, nsName, nr, getFault, writeFault);
    NamespaceEnsuredMeaning(w, sha1, nsName, nr, getFault, writeFault);
    if r.1.None? {
      var before := if nsName in w.namespaces then w.namespaces[nsName] else map[];
      DesiredLabelsIdempotent(sha1, before, nr);
      AgreeWithDesired(sha1, r.0.namespaces[nsName], nr);
    }
  }

  /** A namespace the reconciler creates carries no owner-group-hash label, so the
      admission uniqueness check, which selects on that label, never finds it. */
  lemma CreatedNamespaceNeverSelected(sha1: Sha1, nr: NamespaceRequest, obj: NamespaceRequest)
    ensures !Admission.Selects(Admission.Selector(sha1, obj), DesiredLabels(sha1, map[], nr))
  {
    var sel := Admission.Selector(sha1, obj);
    assert LabelOwnerGroupHash in sel;
    DesiredLabelsMeaning(sha1, map[], nr);
  }

  /** Reconcile writes nothing for a request that is missing, being deleted, or done; a
      failed Get is returned as is. */
  lemma ReconcileSkips(w: World, sha1: Sha1, valid: ValidQuantity, name: string, f: ReconcileFaults)
    ensures var r := Reconciled(w, sha1, valid, name, f);
      && (f.requestGet.Some? ==> r == (w, Some(ClientError(f.requestGet.value))))
      && (f.requestGet.None? && (name !in w.requests || w.requests[name].deleting || IsDone(w.requests[name])) ==>
            r == (w, None))
      && (f.requestGet.None? && name in w.requests && !w.requests[name].deleting && !IsDone(w.requests[name]) ==>
            r == Provisioning(w, sha1, valid, w.requests[name], f))
      && (r.0 != w ==> name in w.requests && r == Provisioning(w, sha1, valid, w.requests[name], f))
  {
  }

  /** A status write replaces the stored request's status and nothing else. */
  lemma StatusWritten(w: World, nr: NamespaceRequest, fault: Option<string>)
    ensures var r := StatusUpdated(w, nr, fault);
      && r.0.tenants == w.tenants && r.0.namespaces == w.namespaces && r.0.objects == w.objects
      && r.0.requests.Keys == w.requests.Keys
      && (forall n :: n in w.requests && n != nr.name ==> r.0.requests[n] == w.requests[n])
      && (r.1.None? <==> fault.None? && nr.name in w.requests)
      && (r.1.None? ==> r.0.requests[nr.name] == w.requests[nr.name].(status := nr.status))
  {
  }

  /** setStatusFailed changes only the phase, reason and message; the namespace name stays. */
  lemma FailedRequestKeeps(nr: NamespaceRequest, reason: string, msg: string)
    ensures var s := FailedRequest(nr, reason, msg).status;
      s == Status(Failed, nr.status.namespaceName, reason, msg)
  {
  }

  /** An empty tenant, a missing one, or any error getting it, fails the request with
      reason TenantNotFound and touches no namespace and no object. */
  lemma TenantGateFails(w: World, sha1: Sha1, valid: ValidQuantity, nr: NamespaceRequest, f: ReconcileFaults)
    requires TenantName(nr) == "" || f.tenantCheckGet.Some? || TenantName(nr) !in w.tenants
    ensures var tenant := TenantName(nr);
      var r := Provisioning(w, sha1, valid, nr, f);
      && r.0.namespaces == w.namespaces && r.0.objects == w.objects
      && (r.1.None? <==> f.statusUpdate.None? && nr.name in w.requests)
      && (r.1.None? ==>
            nr.name in r.0.requests
            && r.0.requests[nr.name].status
               == Status(Failed, nr.status.namespaceName, "TenantNotFound", "tenant " + Quote(tenant) + " not found"))
  {
    var tenant := TenantName(nr);
    var failed := FailedRequest(nr, "TenantNotFound", "tenant " + Quote(tenant) + " not found");
    assert TenantCheck(w, tenant, f.tenantCheckGet).Some?;
    StatusWritten(w, failed, f.statusUpdate);
  }

  /** Otherwise the namespace stage runs. */
  lemma TenantGatePasses(w: World, sha1: Sha1, valid: ValidQuantity, nr: NamespaceRequest, f: ReconcileFaults)
    requires TenantName(nr) != "" && f.tenantCheckGet.None? && TenantName(nr) in w.tenants
    ensures Provisioning(w, sha1, valid, nr, f) == NamespaceStage(w, sha1, valid, nr, f)
  {
  }

  /** A failed namespace step fails the request with reason NamespaceCreateFailed and the
      error's text, and no baseline object is written. */
  lemma NamespaceFailureReported(w: World, sha1: Sha1, valid: ValidQuantity, nr: NamespaceRequest, f: ReconcileFaults)
    ensures var n := NamespaceEnsured(w, sha1, NamespaceName(nr), nr, f.namespaceGet, f.namespaceWrite);
      var r := NamespaceStage(w, sha1, valid, nr, f);
      n.1.Some? ==>
        && r.0.namespaces == w.namespaces && r.0.objects == w.objects
        && (r.1.None? <==> f.statusUpdate.None? && nr.name in w.requests)
        && (r.1.None? ==>
              nr.name in r.0.requests
              && r.0.requests[nr.name].status
                 == Status(Failed, nr.status.namespaceName, "NamespaceCreateFailed", Message(n.1.value)))
  {
    var n := NamespaceEnsured(w, sha1, NamespaceName(nr), nr, f.namespaceGet, f.namespaceWrite);
    NamespaceEnsuredMeaning(w, sha1, NamespaceName(nr), nr, f.namespaceGet, f.namespaceWrite);
    if n.1.Some? {
      StatusWritten(n.0, FailedRequest(nr, "NamespaceCreateFailed", Message(n.1.value)), f.statusUpdate);
    }
  }

  /** The baseline stage leaves every namespace as it found it (a failed baseline does not
      roll the namespace back). A failed baseline fails the request with reason BaselineFailed
      and the error's text; a successful one marks it Provisioned in that namespace, with
      every baseline object settled. */
  lemma BaselineStageMeaning(w: World, sha1: Sha1, valid: ValidQuantity, nr: NamespaceRequest, nsName: string,
                             f: ReconcileFaults)
    ensures var plan := PlanOf(w, sha1, valid, nr, f);
      var b := BaselineEnsured(w, plan, nsName, f.baseline);
      var r := BaselineStage(w, sha1, valid, nr, nsName, f);
      && r.0.namespaces == w.namespaces && r.0.tenants == w.tenants
      && (r.1.None? <==> f.statusUpdate.None? && nr.name in w.requests)
      && (r.1.None? ==>
            nr.name in r.0.requests
            && r.0.requests[nr.name].status
               == if b.1.Some? then Status(Failed, nr.status.namespaceName, "BaselineFailed", Message(b.1.value))
                  else Status(Provisioned, nsName, "", ""))
      && (b.1.None? ==> AllSettled(r.0, plan, nsName))
  {
    var plan := PlanOf(w, sha1, valid, nr, f);
    var b := BaselineEnsured(w, plan, nsName, f.baseline);
    BaselineSameOutside(w, plan, nsName, f.baseline);
    BaselineEnsuredSettles(w, plan, nsName, f.baseline);
    if b.1.Some? {
      StatusWritten(b.0, FailedRequest(nr, "BaselineFailed", Message(b.1.value)), f.statusUpdate);
    } else {
      StatusWritten(b.0, ProvisionedRequest(nr, nsName), f.statusUpdate);
    }
  }

  /** A tenant that cannot be fetched before the baseline is only logged: the baseline then
      gets the zero Tenant and its quota is the global default. */
  lemma TenantFetchFailureUsesDefault(w: World, sha1: Sha1, valid: ValidQuantity, nr: NamespaceRequest,
                                      f: ReconcileFaults)
    requires f.tenantGet.Some? || TenantName(nr) !in w.tenants
    ensures PlanOf(w, sha1, valid, nr, f).quotaHard == Success(DefaultGlobalQuota)
  {
    QuotaHardForSelection(SpecFor(nr, ZeroTenant), valid);
  }

  /** A request that is done is never reconciled again. */
  lemma DoneIsTerminal(w: World, sha1: Sha1, valid: ValidQuantity, name: string, f: ReconcileFaults)
    requires name in w.requests && IsDone(w.requests[name]) && f.requestGet.None?
    ensures Reconciled(w, sha1, valid, name, f) == (w, None)
  {
  }

  /** With no call failing, a request for an existing tenant whose quota quantities parse
      is provisioned: the namespace named by the sanitised "<tenant>-<env>" holds the desired
      labels, every baseline object is settled, and the request is Provisioned there. */
  lemma ProvisionsWithoutFaults(w: World, sha1: Sha1, valid: ValidQuantity, nr: NamespaceRequest)
    requires nr.name in w.requests
    requires TenantName(nr) != "" && TenantName(nr) in w.tenants
    requires QuotaHardFor(SpecFor(nr, w.tenants[TenantName(nr)]), valid).Success?
    ensures var nsName := NamespaceName(nr);
      var r := Provisioning(w, sha1, valid, nr, NoReconcileFaults);
      var before := if nsName in w.namespaces then w.namespaces[nsName] else map[];
      && r.1.None?
      && nr.name in r.0.requests && r.0.requests[nr.name].status == Status(Provisioned, nsName, "", "")
      && nsName in r.0.namespaces && r.0.namespaces[nsName] == DesiredLabels(sha1, before, nr)
      && AllSettled(r.0, PlanOf(w, sha1, valid, nr, NoReconcileFaults), nsName)
  {
    var f := NoReconcileFaults;
    var nsName := NamespaceName(nr);
    TenantGatePasses(w, sha1, valid, nr, f);
    var n := NamespaceEnsured(w, sha1, nsName, nr, None, None);
    NamespaceEnsuredMeaning(w, sha1, nsName, nr, None, None);
    assert NamespaceStage(w, sha1, valid, nr, f) == BaselineStage(n.0, sha1, valid, nr, nsName, f);
    var plan := PlanOf(n.0, sha1, valid, nr, f);
    assert plan == PlanOf(w, sha1, valid, nr, f);
    BaselineWithoutFaults(n.0, plan, nsName);
    BaselineStageMeaning(n.0, sha1, valid, nr, nsName, f);
  }

  /** One reconcile with no call failing provisions such a request in a namespace whose name
      is a DNS-1123 label, and the next reconcile does nothing. */
  lemma ReconcileProvisions(w: World, sha1: Sha1, valid: ValidQuantity, name: string)
    requires name in w.requests && w.requests[name].name == name
    requires var nr := w.requests[name]; !nr.deleting && !IsDone(nr)
    requires var nr := w.requests[name]; TenantName(nr) != "" && TenantName(nr) in w.tenants
    requires var nr := w.requests[name]; QuotaHardFor(SpecFor(nr, w.tenants[TenantName(nr)]), valid).Success?
    ensures var r := Reconciled(w, sha1, valid, name, NoReconcileFaults);
      && r.1.None?
      && IsDns1123Label(NamespaceName(w.requests[name]))
      && name in r.0.requests && r.0.requests[name].status.namespaceName == NamespaceName(w.requests[name])
      && Reconciled(r.0, sha1, valid, name, NoReconcileFaults) == (r.0, None)
  {
    var nr := w.requests[name];
    SanitizeValid(TenantName(nr) + "-" + EnvName(nr));
    ReconcileSkips(w, sha1, valid, name, NoReconcileFaults);
    ProvisionsWithoutFaults(w, sha1, valid, nr);
    var r := Provisioning(w, sha1, valid, nr, NoReconcileFaults);
    DoneIsTerminal(r.0, sha1, valid, name, NoReconcileFaults);
  }
}
