/**
 * The records of api/v1alpha1: NamespaceRequest with its spec and status, the parts of
 * Tenant the core reads, and the label and annotation keys of constants.go.
 */
module Api {
  import opened Wrappers

  const LabelTenant: string := "guardian.io/tenant"
  const LabelEnv: string := "guardian.io/env"
  const LabelOwnerGroup: string := "guardian.io/owner-group"
  const LabelOwnerGroupHash: string := "guardian.io/owner-group-hash"
  const LabelManaged: string := "guardian.io/managed"
  const LabelRequestHash: string := "guardian.io/request-hash"
  const AnnOwnerGroupRaw: string := "guardian.io/owner-group-raw"
  const AnnRequestRaw: string := "guardian.io/request-raw"

  const EnvDev: string := "dev"
  const EnvTest: string := "test"
  const EnvProd: string := "prod"

  type Labels = map<string, string>

  /** An empty environment means "dev". */
  function DefaultEnv(env: string): string {
    if env == "" then EnvDev else env
  }

  /** Go reads a missing map key as the zero value, "". */
  function Lookup(m: Labels, k: string): string {
    if k in m then m[k] else ""
  }

  /** The phase string of a request; NoPhase is Go's empty string. */
  datatype Phase = NoPhase | Pending | Provisioned | Failed

  datatype Spec = Spec(tenant: string, env: string, ownerGroup: string)

  datatype Status = Status(phase: Phase, namespaceName: string, reason: string, message: string)

  /** A NamespaceRequest: its name, metadata labels, whether a deletion timestamp is set,
      spec and status. A nil label map is the empty map. */
  datatype NamespaceRequest = NamespaceRequest(
    name: string, labels: Labels, deleting: bool, spec: Spec, status: Status)

  /** QuotaHard: ten optional quantity strings. */
  datatype QuotaHard = QuotaHard(
    requestsCPU: string, requestsMemory: string, limitsCPU: string, limitsMemory: string,
    pods: string, services: string, configMaps: string, secrets: string,
    persistentVolumeClaims: string, nvidiaGPU: string)

  const EmptyQuotaHard: QuotaHard := QuotaHard("", "", "", "", "", "", "", "", "", "")

  /** The tenant's quota table: a default and per-environment overrides. */
  datatype QuotaSpec = QuotaSpec(defaultHard: QuotaHard, byEnv: map<string, QuotaHard>)

  /** The fields of a Tenant that the core reads. The quota is the single optional
      field the baseline code dereferences as t.Spec.Quota. */
  datatype Tenant = Tenant(allowedGroups: seq<string>, quota: Option<QuotaSpec>)

  /** The zero Tenant a failed Get leaves behind. */
  const ZeroTenant: Tenant := Tenant([], None)
}
