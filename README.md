# namespace-guardian core in Dafny

namespace-guardian is a Kubernetes operator. It turns a `NamespaceRequest`
(tenant, environment, owner group) into a namespace with a fixed baseline. This project
models its core:

- **Admission.** Two webhooks run in order.
  - The mutating defaulter trims the spec, defaults the environment to `dev` and derives
    the selector labels. It is `NamespaceRequestCustomDefaulter.Default`, and its
    `OwnerGroupHash` is the 16-character owner-group fingerprint.
  - The authorisation validator then decides allow, deny or error for a create or an
    update. It checks, in order:
    - the required fields and their format;
    - the tenant lookup;
    - that one of the caller's groups is among the tenant's allowed groups (the tenant
      gate);
    - that the caller holds the environment group or the tenant's admin group (the
      environment gate);
    - that the owner group is one of the caller's groups (the owner gate);
    - that no other live request or existing namespace carries the same
      (tenant, env, owner-group hash) labels.
- **Provisioning.** The reconciler reads a request and skips deleted or already
  provisioned ones. It checks that the tenant exists, then creates the namespace or brings
  its labels up to date. Next it applies the baseline and records `Provisioned` or
  `Failed` in the request's status.
- **Baseline.** `EnsureBaseline` upserts seven objects in a fixed order with
  `CreateOrUpdate` and stops at the first error:
  - the owner RoleBinding and the tenant-admin RoleBinding;
  - the ResourceQuota;
  - the LimitRange;
  - the deny-all, allow-DNS and allow-same-namespace NetworkPolicies.

  The quota's hard limits come from the tenant, either the environment override or the
  tenant default. When the tenant yields an empty list, a fixed global table is used.
- **Fingerprint.** `ShortHash16` is the first 16 lower-case hex characters of the SHA-1
  of the trimmed string.

The project has ten modules:

- `Wrappers`: Option and Result.
- `GoStrings`: Go's `strings.TrimSpace` with Unicode white space, `strings.Trim(s, "-")`,
  UTF-8 length and `%q`.
- `Fingerprint`: hex encoding with its decoder, and `ShortHash16`.
- `Api`: the records and label keys.
- `Store`: the API server as seen through the controller-runtime client. The class
  `Cluster` has maps for requests, tenants, namespaces and namespaced objects, plus a
  log of accepted writes. Each client call is a method, specified by a function on the
  store's value `World`.
- `Baseline`, `Defaulting`, `Admission`, `Dns1123` and `Controller`: the core itself.

The Go code mutates objects and talks to the API server, so the model keeps that form:

- `Default` updates a request object in place.
- Reconcile, `ensureNamespace`, `EnsureBaseline` and the client calls are methods on a
  `Cluster`. Each is proved equal to a function of the old state (`NamespaceEnsured`,
  `BaselineEnsured`, `Reconciled`), and the properties are lemmas about those functions.

Every client call that can fail takes a fault parameter: `None`, or the error text it
returns. One proof therefore covers every pattern of API failure.

SHA-1 and `resource.ParseQuantity` are parameters (`sha1`, `valid`). Every property holds
for any digest function and any quantity parser.

The model follows the code where the design documentation describes something else:

- There is no network-isolation profile. The three NetworkPolicies are always written.
- There is no per-environment LimitRange. Its defaults are constants.
- `selectQuotaHard` reads the tenant quota at `Spec.Quota`, although `TenantSpec` in
  api/v1alpha1/tenant_types.go declares it under `Spec.Baseline.Quota`. The model's Tenant
  has the one optional quota that the baseline code reads.
- The core never reads the tenant's suspend flag, namespace-name pattern, RBAC role
  overrides, LimitRange or NetworkPolicy settings, so the model's Tenant leaves them out.
- The reconciler turns every error from the tenant `Get` into `TenantNotFound`, whatever
  its cause.
- A failed tenant fetch just before the baseline only gets logged. The baseline then runs
  with an empty Tenant and so gets the global quota (`TenantFetchFailureUsesDefault`).
- The second RoleBinding is named `guardian-tenant-admin.yaml` and binds
  `<tenant>:ns-admin` to the ClusterRole `guardian-tenant-edit`.
- The reconciler labels the namespace with `guardian.io/owner-group`. The validator's
  namespace check selects on `guardian.io/owner-group-hash`. So a namespace created by the
  reconciler never matches that check (`CreatedNamespaceNeverSelected`); only requests
  do.
- `labelsEqual` treats a missing key as `""`, so it is not map equality
  (`AgreeIsNotEquality`). Against the desired labels, which hold every existing key, it
  is exact (`AgreeWithDesired`).

## Model

| member | source | states |
|---|---|---|
| Fingerprint.ShortHash16 | api/v1alpha1/hash.go:9-13 | the fingerprint is 16 characters, all lower-case hex digits |
| Fingerprint.ShortHashIgnoresSurroundingSpace | api/v1alpha1/hash.go:10 | strings that differ only by surrounding white space have the same fingerprint |
| Fingerprint.ShortHashIsDigestPrefix | api/v1alpha1/hash.go:11-12 | the full hex digest has 40 characters, and the fingerprint is the hex of the digest's first 8 bytes |
| Fingerprint.ShortHashDeterminesDigestPrefix | api/v1alpha1/hash.go:12 | equal fingerprints mean the two trimmed strings' digests agree on their first 8 bytes |
| Fingerprint.ShortHashNotIdentity | api/v1alpha1/hash.go:12 | a string longer than 16 characters is never its own fingerprint |
| Fingerprint.HexDigit | api/v1alpha1/hash.go:12 | every nibble encodes to a lower-case hex digit |
| Fingerprint.HexValue | api/v1alpha1/hash.go:12 | decoding a hex digit gives a nibble that encodes back to it |
| Fingerprint.HexPair | api/v1alpha1/hash.go:12 | a byte encodes to two hex digits that decode back to the byte |
| Fingerprint.HexEncode | api/v1alpha1/hash.go:12 | hex.EncodeToString doubles the length and yields only lower-case hex digits |
| Fingerprint.HexRoundTrip | api/v1alpha1/hash.go:12 | decoding the hex encoding of any byte string gives the byte string back |
| Fingerprint.HexEncodeAppend | api/v1alpha1/hash.go:12 | hex encoding distributes over concatenation, so a digest prefix encodes to a prefix of the hex |
| GoStrings.TrimLeftSpace | internal/webhook/v1alpha1/namespacerequest_webhook.go:84-86 | the result is no longer than the input and does not start with white space |
| GoStrings.TrimRightSpace | internal/webhook/v1alpha1/namespacerequest_webhook.go:84-86 | the result is no longer than the input and does not end with white space |
| GoStrings.TrimLeftSpaceIsSuffix | internal/webhook/v1alpha1/namespacerequest_webhook.go:84-86 | left trimming removes exactly a leading run of white space and keeps the rest |
| GoStrings.TrimRightSpaceIsPrefix | internal/webhook/v1alpha1/namespacerequest_webhook.go:84-86 | right trimming removes exactly a trailing run of white space and keeps the rest |
| GoStrings.TrimSpaceIdempotent | internal/webhook/v1alpha1/namespacerequest_webhook.go:84-86 | strings.TrimSpace is idempotent, and its result has no white space at either end |
| GoStrings.TrimSpaceOfTrimmed | internal/webhook/v1alpha1/namespacerequest_webhook.go:84-86 | a string with no white space at either end is left unchanged |
| GoStrings.TrimDashes | internal/controller/namespacerequest_controller.go:159 | strings.Trim(s, "-") leaves no dash at either end, adds no character and empties an all-dash string |
| GoStrings.EncodeRune | internal/webhook/v1alpha1/namespacerequest_authz_handler.go:74 | a character takes 1 to 4 UTF-8 bytes, and exactly one when it is ASCII |
| GoStrings.Utf8 | internal/webhook/v1alpha1/namespacerequest_authz_handler.go:74 | Go's byte length is at least the character count, and equals it for ASCII text |
| Defaulting.OwnerGroupHash | internal/webhook/v1alpha1/namespacerequest_webhook.go:106-110 | the webhook's own copy of the fingerprint equals ShortHash16 |
| Defaulting.NamespaceRequestObject.constructor | internal/webhook/v1alpha1/namespacerequest_webhook.go:78 | the object handed to the defaulter holds the given request |
| Defaulting.Default | internal/webhook/v1alpha1/namespacerequest_webhook.go:77-104 | a non-NamespaceRequest object gives the type error; a request is rewritten in place to its defaulted form, with no error |
| Defaulting.DerivedLabelsInSteps | internal/webhook/v1alpha1/namespacerequest_webhook.go:97-101 | setting the four labels one by one equals overlaying the derived label map |
| Defaulting.DefaultEnvTrimmed | internal/webhook/v1alpha1/namespacerequest_webhook.go:85-91 | the defaulted environment needs no further trimming |
| Defaulting.DefaultedSpecIsNormal | internal/webhook/v1alpha1/namespacerequest_webhook.go:84-91 | after defaulting, all three fields are trimmed and the environment is non-empty; it is "dev" exactly when the trimmed input was empty or "dev" |
| Defaulting.DefaultedSpecIdempotent | internal/webhook/v1alpha1/namespacerequest_webhook.go:84-91 | defaulting the spec twice equals defaulting it once |
| Defaulting.DefaultedLabels | internal/webhook/v1alpha1/namespacerequest_webhook.go:94-101 | the tenant, env, owner-group-hash and managed labels match the defaulted spec; every other label is kept; the raw owner-group label is left untouched |
| Defaulting.DerivedOverlay | internal/webhook/v1alpha1/namespacerequest_webhook.go:97-101 | the overlay sets the four derived labels, keeps every other key with its value, and does not touch the owner-group label |
| Defaulting.DefaultIdempotent | internal/webhook/v1alpha1/namespacerequest_webhook.go:77-104 | running Default on a defaulted request changes nothing |
| Admission.GetTenant | internal/webhook/v1alpha1/namespacerequest_authz_handler.go:86-92 | the tenant is found only when it is stored; it is absent exactly when the read succeeds and no such tenant exists |
| Admission.Filter | internal/webhook/v1alpha1/namespacerequest_authz_handler.go:130 | a label-selected list holds exactly the items that match, and no more items than there are |
| Admission.Contains | internal/webhook/v1alpha1/namespacerequest_authz_handler.go:243-250 | the linear scan answers true exactly when the string is in the list |
| Admission.AnyGroupAllowed | internal/webhook/v1alpha1/namespacerequest_authz_handler.go:224-241 | the two loops decide the tenant-gate predicate |
| Admission.AllowedSetMembers | internal/webhook/v1alpha1/namespacerequest_authz_handler.go:228-234 | the allowed set holds exactly the non-blank trimmed entries of allowedGroups |
| Admission.GroupsAllowedIff | internal/webhook/v1alpha1/namespacerequest_authz_handler.go:224-241 | a caller passes the tenant gate iff one of their groups equals a non-blank trimmed allowed group; an empty allowed list admits nobody |
| Admission.CallerGroupsNotTrimmed | internal/webhook/v1alpha1/namespacerequest_authz_handler.go:230-236 | allowed groups are trimmed but the caller's groups are not: " ops " admits "ops", while "ops" does not admit " ops" |
| Admission.FirstConflict | internal/webhook/v1alpha1/namespacerequest_authz_handler.go:133-144 | no conflict iff every selected request is the request itself or Failed; otherwise the first such other live request is named |
| Admission.CheckGates | internal/webhook/v1alpha1/namespacerequest_authz_handler.go:86-118 | the tenant lookup and the three gates give the specified verdict, in order |
| Admission.CheckUniqueness | internal/webhook/v1alpha1/namespacerequest_authz_handler.go:121-158 | the request and namespace listings give the specified verdict |
| Admission.ValidateCreate | internal/webhook/v1alpha1/namespacerequest_authz_handler.go:45-159 | the create path gives the create verdict |
| Admission.ValidateUpdate | internal/webhook/v1alpha1/namespacerequest_authz_handler.go:161-222 | the update path gives the update verdict |
| Admission.Handle | internal/webhook/v1alpha1/namespacerequest_authz_handler.go:27-43 | dispatching on the operation gives the handler's verdict |
| Admission.FieldChecksPrecedeReads | internal/webhook/v1alpha1/namespacerequest_authz_handler.go:67-83 | each field error (no tenant, no owner group, an owner group over 63 UTF-8 bytes, an unknown environment) gives its denial before any read, whatever the store and the caller |
| Admission.TenantLookupNeverAllows | internal/webhook/v1alpha1/namespacerequest_authz_handler.go:86-92 | a failed tenant read is a 500 error and a missing tenant a denial: on create once the field checks pass, on update once tenant and owner group are non-empty (update has no environment or length check) |
| Admission.UniquenessAllowedIff | internal/webhook/v1alpha1/namespacerequest_authz_handler.go:121-158 | the uniqueness stage allows iff both listings succeed, every selected request is this one or Failed, and no namespace is selected |
| Admission.UniquenessOutcomes | internal/webhook/v1alpha1/namespacerequest_authz_handler.go:128-156 | a failed request List is a 500 error, never a denial; a live request with another name and the same labels is a RequestExists denial naming one, before the namespace List is made; then a failed namespace List is a 500 error; a labelled namespace is a NamespaceExists denial naming the first one listed |
| Admission.CreateListingsOutcomes | internal/webhook/v1alpha1/namespacerequest_authz_handler.go:128-156 | once the field checks and gates pass, the create verdict follows the same four listing outcomes |
| Admission.GatesPassIff | internal/webhook/v1alpha1/namespacerequest_authz_handler.go:86-118 | the gates pass iff the tenant read succeeds and finds the tenant, and the tenant, environment and owner gates all hold |
| Admission.CreateAllowedIff | internal/webhook/v1alpha1/namespacerequest_authz_handler.go:45-159 | a create is allowed iff every field check, the tenant lookup, all three gates and both uniqueness listings pass |
| Admission.DefaultedRequestSelected | internal/webhook/v1alpha1/namespacerequest_authz_handler.go:121-126 | a stored, defaulted request with the same trimmed spec matches the selector built for a new request |
| Admission.DuplicateRequestDenied | internal/webhook/v1alpha1/namespacerequest_authz_handler.go:133-144 | once a request passes the gates, a stored live request with another name and the same trimmed spec makes the create a RequestExists denial |
| Admission.CreateVerdictIgnoresDefaulting | internal/webhook/v1alpha1/namespacerequest_authz_handler.go:51-56 | the validator's verdict on a defaulted request equals its verdict on the raw one |
| Admission.UpdateImmutable | internal/webhook/v1alpha1/namespacerequest_authz_handler.go:171-180 | changing tenant, env or ownerGroup on update is an Immutable denial, whatever the store and the caller |
| Admission.UpdateNeverLists | internal/webhook/v1alpha1/namespacerequest_authz_handler.go:161-222 | the update verdict does not depend on the listed requests or namespaces, nor on list failures |
| Admission.HandleDispatch | internal/webhook/v1alpha1/namespacerequest_authz_handler.go:27-43 | a missing client or decoder is an error; delete and connect are allowed; an allowed create or update passed that operation's validation |
| Dns1123.LowerChar | internal/controller/namespacerequest_controller.go:157 | lowering leaves label characters unchanged |
| Dns1123.ToLower | internal/controller/namespacerequest_controller.go:157 | strings.ToLower keeps the length and lowers each character |
| Dns1123.CollapseInvalid | internal/controller/namespacerequest_controller.go:158 | the replacement never lengthens the string, yields only label characters, and gives only dashes when no letter or digit is present |
| Dns1123.SanitizeValid | internal/controller/namespacerequest_controller.go:156-171 | sanitizeDNS1123 always returns a DNS-1123 label: 1 to 63 characters from [a-z0-9-], with no dash at either end |
| Dns1123.SanitizeFallback | internal/controller/namespacerequest_controller.go:160-162 | the result is "ns" when no letter or digit survives lowering |
| Dns1123.SanitizeFixesLabels | internal/controller/namespacerequest_controller.go:156-171 | a valid label is returned unchanged |
| Dns1123.SanitizeIdempotent | internal/controller/namespacerequest_controller.go:156-171 | sanitising twice equals sanitising once |
| Dns1123.BuildNamespaceName | internal/controller/namespacerequest_controller.go:148-151 | the name built from any tenant and environment is a DNS-1123 label |
| Dns1123.BuildNamespaceNameExample | internal/controller/namespacerequest_controller.go:148-151 | tenant "acme" and env "dev" give the namespace "acme-dev" |
| Controller.DesiredNSLabels | internal/controller/namespacerequest_controller.go:173-188 | the copy loop and the assignments compute the desired namespace labels |
| Controller.DesiredLabelsMeaning | internal/controller/namespacerequest_controller.go:173-188 | the existing labels are kept, plus tenant, env (defaulted to dev), the 16-character owner-group fingerprint, managed and request |
| Controller.DesiredLabelsIdempotent | internal/controller/namespacerequest_controller.go:173-188 | applying desiredNSLabels to its own result gives the same map |
| Controller.LabelsEqual | internal/controller/namespacerequest_controller.go:190-200 | the loop decides equal size plus every key of a read in b as its value |
| Controller.EqualLabelsAgree | internal/controller/namespacerequest_controller.go:190-200 | every label map is labelsEqual to itself |
| Controller.AgreeIsNotEquality | internal/controller/namespacerequest_controller.go:194-196 | two different maps of equal size can be labelsEqual, because a missing key reads as "" |
| Controller.AgreeWithSuperset | internal/controller/namespacerequest_controller.go:190-200 | when b has every key of a, labelsEqual(a, b) is exactly a == b |
| Controller.AgreeWithDesired | internal/controller/namespacerequest_controller.go:117-118 | the comparison of existing and desired labels is exact map equality |
| Controller.EnsureTenantExists | internal/controller/namespacerequest_controller.go:104-110 | the check succeeds iff the tenant name is non-empty, the read succeeds and the tenant is stored |
| Controller.TenantOrZero | internal/controller/namespacerequest_controller.go:74-77 | the fetched tenant when the read succeeds, the zero Tenant otherwise |
| Controller.EnsureNamespace | internal/controller/namespacerequest_controller.go:112-136 | the Get, Create and Update calls change the store as the namespace-ensuring function says |
| Controller.NamespaceEnsuredMeaning | internal/controller/namespacerequest_controller.go:112-136 | only this namespace changes; a Get error is returned as is; on success it carries the desired labels; no write happens iff it already carried them; without faults it succeeds |
| Controller.NamespaceEnsuredIdempotent | internal/controller/namespacerequest_controller.go:112-136 | after a successful ensure, a second fault-free ensure writes nothing |
| Controller.CreatedNamespaceNeverSelected | internal/controller/namespacerequest_controller.go:184 | a namespace created by the reconciler never matches the validator's owner-group-hash selector |
| Controller.SetStatusFailed | internal/controller/namespacerequest_controller.go:138-144 | the request's status becomes Failed with the given reason and message, through a status update |
| Controller.StatusWritten | internal/controller/namespacerequest_controller.go:95 | a status update replaces only that request's status; it succeeds iff the call does not fail and the request is stored |
| Controller.FailedRequestKeeps | internal/controller/namespacerequest_controller.go:138-144 | a failed status has phase Failed, the given reason and message, and keeps the namespace name |
| Controller.ProvisionBaseline | internal/controller/namespacerequest_controller.go:73-98 | fetching the tenant, applying the baseline and writing the status change the store as the baseline stage says |
| Controller.ProvisionNamespace | internal/controller/namespacerequest_controller.go:65-98 | ensuring the namespace and then the baseline stage change the store as the namespace stage says |
| Controller.Reconcile | internal/controller/namespacerequest_controller.go:35-102 | a reconcile changes the store and returns the error the reconcile function says |
| Controller.ReconcileSkips | internal/controller/namespacerequest_controller.go:39-51 | a failed read returns its error; a missing, deleted or provisioned request is a no-op; only provisioning of a stored request changes the store |
| Controller.TenantGateFails | internal/controller/namespacerequest_controller.go:60-63 | an empty or unreadable tenant creates no namespace and no object, and marks the request Failed/TenantNotFound when the status write succeeds |
| Controller.TenantGatePasses | internal/controller/namespacerequest_controller.go:60-65 | a tenant that exists moves provisioning on to the namespace stage |
| Controller.NamespaceFailureReported | internal/controller/namespacerequest_controller.go:68-71 | a failed namespace ensure leaves the baseline unwritten and records Failed/NamespaceCreateFailed with the error text |
| Controller.BaselineStageMeaning | internal/controller/namespacerequest_controller.go:73-98 | no namespace changes; the status write succeeds iff the call succeeds; the status is Provisioned with the namespace name after a good baseline, Failed/BaselineFailed with the error text otherwise; a good baseline leaves every object settled |
| Controller.TenantFetchFailureUsesDefault | internal/controller/namespacerequest_controller.go:74-83 | when the tenant read fails, the baseline uses the global quota table |
| Controller.DoneIsTerminal | internal/controller/namespacerequest_controller.go:49-51 | reconciling a provisioned request changes nothing and returns no error |
| Controller.ProvisionsWithoutFaults | internal/controller/namespacerequest_controller.go:35-102 | with no failing call, an existing tenant and a valid quota, provisioning succeeds: it marks the request Provisioned, labels the namespace and settles all seven baseline objects |
| Controller.ReconcileProvisions | internal/controller/namespacerequest_controller.go:35-102 | under the same conditions one reconcile provisions a valid DNS-1123 namespace and records its name, and a second reconcile is a no-op |
| Baseline.PutQuantity | internal/controller/baseline.go:50-61 | one put: a blank value is skipped, a malformed one fails naming the resource, any other is stored; the result advances the field-by-field fold |
| Baseline.QuotaHardToResourceList | internal/controller/baseline.go:47-100 | the ten puts in sequence compute the field-by-field fold |
| Baseline.ResourceQuotaHard | internal/controller/baseline.go:195-219 | the tenant's list, or the global table when it is empty, or the error |
| Baseline.FieldsDistinct | internal/controller/baseline.go:63-97 | the ten fields name ten different quota resources |
| Baseline.PutFromFails | internal/controller/baseline.go:47-100 | the conversion fails iff some remaining field is set and malformed |
| Baseline.PutFromFirstBad | internal/controller/baseline.go:47-100 | a failure names the first malformed set field and its trimmed value |
| Baseline.PutFromSkipsBlanks | internal/controller/baseline.go:51-54 | blank fields leave the fold unchanged |
| Baseline.PutFromKeys | internal/controller/baseline.go:47-100 | on success, the keys are the starting keys plus the set fields' resources |
| Baseline.PutFromKeeps | internal/controller/baseline.go:47-100 | on success, a starting entry for a resource no remaining field sets keeps its value |
| Baseline.PutFromValues | internal/controller/baseline.go:47-100 | on success, each set field's resource maps to its trimmed value |
| Baseline.ResourceListMeaning | internal/controller/baseline.go:47-100 | quotaHardToResourceList fails iff a set field is malformed, with the error of the first one; on success it holds exactly the set fields, with their trimmed values |
| Baseline.QuotaHardForSelection | internal/controller/baseline.go:195-239 | without a tenant quota the global table is used; otherwise the environment override or default is converted, and its error passes through; a successful result is never empty |
| Baseline.QuotaHardForFallback | internal/controller/baseline.go:216-219 | the global table is used exactly when the selected tenant quota sets no field |
| Baseline.GpuOnlyQuota | internal/controller/baseline.go:90-97 | a quota that sets only the GPU field gives a one-entry list for nvidia.com/gpu |
| Baseline.CopyEntries | internal/controller/baseline.go:375-380 | each copy loop overlays its map onto the output |
| Baseline.MergeLabels | internal/controller/baseline.go:373-382 | the result has the keys of both maps; src wins on shared keys, and dst keeps the rest |
| Baseline.EnsureBaselineMeta | internal/controller/baseline.go:391-401 | the baseline labels are merged over the object's labels, and the two raw annotations are set with the rest kept |
| Baseline.BaselineMetaIdempotent | internal/controller/baseline.go:391-401 | applying ensureBaselineMeta twice equals applying it once |
| Baseline.BuildPlan | internal/controller/baseline.go:132-141 | the labels, raw values, admin group and hard limits every step's mutate closure needs |
| Baseline.Mutate | internal/controller/baseline.go:143-371 | each step's mutate closure: ensureBaselineMeta, then that step's spec |
| Baseline.MutatedMeaning | internal/controller/baseline.go:143-371 | a mutation fails only for the quota step with a bad quota, and then with that error; otherwise it sets the step's spec, the merged labels and the raw annotations, keeps the other entries, and applying it again changes nothing |
| Baseline.StepKeysDistinct | internal/controller/baseline.go:143-371 | the seven steps write seven different objects |
| Baseline.CreateOrUpdate | internal/controller/baseline.go:143-371 | the Get, mutate and Create/Update of one step change the store as the upsert function says |
| Baseline.CreatedOrUpdatedMeaning | internal/controller/baseline.go:160 | with an idempotent mutation, CreateOrUpdate touches only its own object, a failure changes nothing, and success leaves the object stored at a fixed point of the mutation |
| Baseline.CreatedOrUpdatedUntouched | internal/controller/baseline.go:160 | CreateOrUpdate leaves every other object as it was |
| Baseline.UpsertedMeaning | internal/controller/baseline.go:143-371 | one step writes only its own object; a failure changes nothing; success leaves the object settled |
| Baseline.SettledIsNoop | internal/controller/baseline.go:160 | upserting a settled object without faults writes nothing |
| Baseline.UpsertedKeepsSettled | internal/controller/baseline.go:143-371 | one step does not unsettle another step's object |
| Baseline.StepSettles | internal/controller/baseline.go:103-130 | a successful step settles its own object and keeps the earlier ones settled |
| Baseline.PoliciesEnsuredSettles | internal/controller/baseline.go:268-285 | successful network policies settle all three policy objects and keep the earlier ones settled |
| Baseline.FirstStepsSettle | internal/controller/baseline.go:103-117 | successful RoleBinding and quota steps settle their three objects |
| Baseline.EnsureNetworkPolicies | internal/controller/baseline.go:268-285 | the three policy upserts run in order and stop at the first error |
| Baseline.EnsureBaselineObjects | internal/controller/baseline.go:103-130 | the seven upserts run in order, and the first error is wrapped in its step's context |
| Baseline.EnsureBaseline | internal/controller/baseline.go:103-130 | EnsureBaseline changes the store as the baseline function says, with the plan built from the spec |
| Baseline.BaselineEnsuredSettles | internal/controller/baseline.go:103-130 | after a successful EnsureBaseline all seven objects are stored with the baseline labels, annotations and specs |
| Baseline.SettledBaselineIsNoop | internal/controller/baseline.go:103-130 | on a settled namespace, a fault-free EnsureBaseline writes nothing |
| Baseline.BaselineIdempotent | internal/controller/baseline.go:103-130 | after one success, a second fault-free EnsureBaseline succeeds and changes nothing, not even the write log |
| Baseline.SameOutsideTransitive | internal/controller/baseline.go:103-130 | two consecutive states that touch nothing outside the namespace compose |
| Baseline.UpsertedSameOutside | internal/controller/baseline.go:143-371 | one upsert touches nothing outside its namespace |
| Baseline.PoliciesSameOutside | internal/controller/baseline.go:268-285 | the policies touch nothing outside the namespace |
| Baseline.BaselineSameOutside | internal/controller/baseline.go:103-130 | EnsureBaseline changes no request, tenant, namespace or object outside its namespace |
| Baseline.QuotaErrorStopsBaseline | internal/controller/baseline.go:114-117 | with a malformed quota, EnsureBaseline fails at the latest at the quota step, wrapped in that step's context, and writes no LimitRange or policy |
| Baseline.UpsertedFailureKeeps | internal/controller/baseline.go:143-371 | a failed upsert changes nothing |
| Baseline.UpsertedUntouched | internal/controller/baseline.go:143-371 | an upsert leaves every other object as it was |
| Baseline.UpsertedWithoutFault | internal/controller/baseline.go:143-371 | without client faults, a step fails iff it is the quota step and the quota is malformed |
| Baseline.BaselineWithoutFaults | internal/controller/baseline.go:103-130 | without client faults, EnsureBaseline fails iff the tenant quota is malformed |
| Store.ReadKey | internal/controller/namespacerequest_controller.go:39 | a Get finds the object iff the call succeeds and the key is stored, and returns the stored value |
| Store.NamespaceCreated | internal/controller/namespacerequest_controller.go:135 | Create succeeds iff the call succeeds and the name is free; on success only that namespace and the write log change, on failure nothing does |
| Store.NamespaceUpdated | internal/controller/namespacerequest_controller.go:120 | Update succeeds iff the call succeeds and the namespace exists; on success only its labels and the log change |
| Store.StatusUpdated | internal/controller/namespacerequest_controller.go:95 | Status().Update succeeds iff the call succeeds and the request is stored; it replaces only that request's status |
| Store.ObjectCreated | internal/controller/baseline.go:160 | Create of a namespaced object succeeds iff the call succeeds and the key is free |
| Store.ObjectUpdated | internal/controller/baseline.go:160 | Update of a namespaced object succeeds iff the call succeeds and the object exists |
| Store.Cluster.constructor | internal/controller/namespacerequest_controller.go:30-33 | the client's store starts in the given state |
| Store.Cluster.GetRequest | internal/controller/namespacerequest_controller.go:39 | reads the request as ReadKey says |
| Store.Cluster.GetTenant | internal/controller/namespacerequest_controller.go:109 | reads the tenant as ReadKey says |
| Store.Cluster.GetNamespace | internal/controller/namespacerequest_controller.go:114 | reads the namespace as ReadKey says |
| Store.Cluster.GetObject | internal/controller/baseline.go:160 | reads the object as ReadKey says |
| Store.Cluster.CreateNamespace | internal/controller/namespacerequest_controller.go:135 | changes the store as NamespaceCreated says |
| Store.Cluster.UpdateNamespace | internal/controller/namespacerequest_controller.go:120 | changes the store as NamespaceUpdated says |
| Store.Cluster.UpdateStatus | internal/controller/namespacerequest_controller.go:95 | changes the store as StatusUpdated says |
| Store.Cluster.CreateObject | internal/controller/baseline.go:160 | changes the store as ObjectCreated says |
| Store.Cluster.UpdateObject | internal/controller/baseline.go:160 | changes the store as ObjectUpdated says |

## Left out

- SHA-1 (`crypto/sha1`) is a parameter of type `seq<byte> -> Digest`. Properties that need
  a real hash, such as collision resistance of the fingerprint, are not stated.
- `resource.ParseQuantity` is a parameter `valid: string -> bool`. Quantities are kept as
  their trimmed text, so canonical quantity forms and their equality are not modelled. The
  same holds for the `DeepEqual` that `CreateOrUpdate` uses to decide whether to update.
- RoleBinding subjects and role references, the LimitRange items and the NetworkPolicy
  rules are abstracted to the values the closures set (group and role, the two default
  lists, the rule kind). Ports, selectors and API group strings are not modelled.
- Baseline.BuildPlan: the labels and the quota are computed once per EnsureBaseline, not
  inside each mutate closure as the Go code does. Both depend only on the spec, so the
  writes are the same.
- `fmt` `%q` escaping is not modelled. `Quote` adds plain double quotes.
- Admission responses are tags with their parameters, such as `Denied(RequestExists(name))`
  or `Errored(500, RequestListFailed)`. The message texts of the validator's `Denied` and
  `Errored` responses, and the client error an `Errored` wraps, are not modelled.
- Store.Message: the text of `InvalidQuantity` omits the `: <parse error>` suffix that
  `quotaHardToResourceList` appends from `resource.ParseQuantity`. The parser is a
  predicate here, so its error text is absent. The `BaselineFailed` status message lacks
  that suffix accordingly.
- The wording of error texts that come from client libraries is not modelled. A failing
  client call returns the text given by its fault parameter.
- Logging, the webhook server, the decoder's JSON handling and the manager wiring
  (`SetupWithManager`, `main`) are not modelled. An object that does not decode is `None` in the request.
- Controller.DesiredNSLabels: the unused `nsName` parameter of `desiredNSLabels` is dropped.
- Controller.ReconcileProvisions assumes that the stored request's name equals its key,
  as it does in the API server.
- The status update's `resourceVersion` conflict check is not modelled. A conflict is one
  more failure the fault parameter can produce.
- Concurrency between webhook calls, and between several reconciles, is not modelled.
  Neither are requeueing and watches. Each call runs alone against one state of the store.
- The `Store` module models the controller-runtime client and the API server, not code of
  this repository. Its rows cite the call sites.
