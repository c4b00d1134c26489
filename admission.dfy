/**
 * The validating admission stage (internal/webhook/v1alpha1/namespacerequest_authz_handler.go):
 * NamespaceRequestAuthzValidator.Handle dispatches create and update requests to ordered
 * decision chains over a snapshot of the store. Each chain is specified by a verdict
 * function; the methods that walk the caller's groups and the listed requests are proved
 * equal to those functions.
 */
module Admission {
  import opened Wrappers
  import opened GoStrings
  import opened Fingerprint
  import opened Api
  import opened Defaulting

  /** A Namespace as the uniqueness check lists it: its name and labels. */
  datatype Namespace = Namespace(name: string, labels: Labels)

  /** What the client reads from: tenants by name and the two listable kinds. */
  datatype Snapshot = Snapshot(
    tenants: map<string, Tenant>, requests: seq<NamespaceRequest>, namespaces: seq<Namespace>)

  /** Which of the three reads fails with an error other than NotFound. */
  datatype ReadFaults = ReadFaults(tenantGet: bool, requestList: bool, namespaceList: bool)

  /** The client as the validator sees it. */
  datatype Client = Client(snapshot: Snapshot, faults: ReadFaults)

  /** The validator's two dependencies; a nil Client is None, a nil Decoder is false. */
  datatype Validator = Validator(client: Option<Client>, decoderSet: bool)

  datatype Operation = Create | Update | Delete | Connect

  datatype UserInfo = UserInfo(username: string, groups: seq<string>)

  /** An admission request; an object that does not decode is None. */
  datatype AdmissionRequest = AdmissionRequest(
    operation: Operation, user: UserInfo,
    obj: Option<NamespaceRequest>, oldObj: Option<NamespaceRequest>)

  /** Why a request was denied (the message text is not modelled, its parameters are). */
  datatype Denial =
    | TenantRequired
    | OwnerGroupRequired
    | OwnerGroupTooLong
    | EnvNotAllowed(env: string)
    | TenantNotFound(tenant: string)
    | TenantForbidden(tenant: string)
    | EnvGroupMissing(envGroup: string, adminGroup: string)
    | OwnerGroupNotHeld(ownerGroup: string)
    | RequestExists(existing: string)
    | NamespaceExists(example: string)
    | Immutable(field: string)
    | TenantOrOwnerGroupRequired

  /** Why the validator could not reach a decision. */
  datatype Fault =
    | ClientNotInitialized
    | DecoderNotInitialized
    | DecodeFailed
    | TenantGetFailed
    | RequestListFailed
    | NamespaceListFailed

  /** admission.Allowed, admission.Denied and admission.Errored. */
  datatype Response = Allowed | Denied(reason: Denial) | Errored(code: int, fault: Fault)

  /** Client.Get of a Tenant by name. */
  datatype TenantRead = TenantFound(tenant: Tenant) | TenantAbsent | TenantReadError

  function GetTenant(c: Client, name: string): (r: TenantRead)
    ensures r.TenantFound? ==> name in c.snapshot.tenants && r.tenant == c.snapshot.tenants[name]
    ensures r.TenantAbsent? <==> !c.faults.tenantGet && name !in c.snapshot.tenants
  {
    if c.faults.tenantGet then TenantReadError
    else if name in c.snapshot.tenants then TenantFound(c.snapshot.tenants[name])
    else TenantAbsent
  }

  /** A labels.Set selector matches when every selector key is present with the same value. */
  predicate Selects(sel: Labels, labels: Labels) {
    forall k :: k in sel ==> k in labels && labels[k] == sel[k]
  }

  /** The items of a List call with a label selector, in store order. */
  function Filter<T(!new)>(xs: seq<T>, keep: T -> bool): (r: seq<T>)
    ensures |r| <= |xs|
    ensures forall x :: x in r <==> x in xs && keep(x)
  {
    if xs == [] then []
    else (if keep(xs[0]) then [xs[0]] else []) + Filter(xs[1..], keep)
  }

  function MatchingRequests(rs: seq<NamespaceRequest>, sel: Labels): seq<NamespaceRequest> {
    Filter(rs, (r: NamespaceRequest) => Selects(sel, r.labels))
  }

  function MatchingNamespaces(ns: seq<Namespace>, sel: Labels): seq<Namespace> {
    Filter(ns, (n: Namespace) => Selects(sel, n.labels))
  }

  /** The trimmed spec the validator checks: the same trims and env default as Default. */
  function Checked(s: Spec): Spec {
    DefaultedSpec(s)
  }

  /** contains: exact membership. */
  method Contains(list: seq<string>, s: string) returns (found: bool)
    ensures found <==> s in list
  {
    for i := 0 to |list|
      invariant s !in list[..i]
    {
      if list[i] == s {
        return true;
      }
    }
    assert list[..|list|] == list;
    return false;
  }

  /** The set anyGroupAllowed builds: the trimmed, non-empty allowed entries. */
  function AllowedSet(allowed: seq<string>): set<string> {
    if allowed == [] then {}
    else
      var a := TrimSpace(allowed[|allowed| - 1]);
      AllowedSet(allowed[..|allowed| - 1]) + (if a != "" then {a} else {})
  }

  /** The tenant-level gate: some caller group, taken verbatim, is an allowed entry. */
  predicate GroupsAllowed(userGroups: seq<string>, allowed: seq<string>) {
    exists g :: g in userGroups && g in AllowedSet(allowed)
  }

  /** anyGroupAllowed. */
  method AnyGroupAllowed(userGroups: seq<string>, allowed: seq<string>) returns (ok: bool)
    ensures ok == GroupsAllowed(userGroups, allowed)
  {
    if |allowed| == 0 {
      return false;
    }
    var set_ := {};
    for k := 0 to |allowed|
      invariant set_ == AllowedSet(allowed[..k])
    {
      var a := TrimSpace(allowed[k]);
      if a != "" {
        set_ := set_ + {a};
      }
      assert allowed[..k + 1][..k] == allowed[..k];
    }
    assert allowed[..|allowed|] == allowed;
    for i := 0 to |userGroups|
      invariant forall j :: 0 <= j < i ==> userGroups[j] !in set_
    {
      if userGroups[i] in set_ {
        return true;
      }
    }
    return false;
  }

  /** The environment gate: the tenant's admin group or its group for this environment. */
  predicate EnvGatePasses(groups: seq<string>, s: Spec) {
    s.tenant + ":ns-admin" in groups || s.tenant + ":" + s.env in groups
  }

  /** The gates create and update share, after the field checks: tenant lookup, tenant
      group, environment group, ownership of the owner group. None when all pass. */
  function Gates(c: Client, user: UserInfo, s: Spec): Option<Response> {
    match GetTenant(c, s.tenant)
    case TenantAbsent => Some(Denied(TenantNotFound(s.tenant)))
    case TenantReadError => Some(Errored(500, TenantGetFailed))
    case TenantFound(t) =>
      if !GroupsAllowed(user.groups, t.allowedGroups) then Some(Denied(TenantForbidden(s.tenant)))
      else if !EnvGatePasses(user.groups, s) then
        Some(Denied(EnvGroupMissing(s.tenant + ":" + s.env, s.tenant + ":ns-admin")))
      else if s.ownerGroup !in user.groups then Some(Denied(OwnerGroupNotHeld(s.ownerGroup)))
      else None
  }

  /** The uniqueness selector: tenant, env and the owner-group fingerprint. */
  function Selector(sha1: Sha1, obj: NamespaceRequest): Labels {
    var s := Checked(obj.spec);
    map[LabelTenant := s.tenant, LabelEnv := s.env,
        LabelOwnerGroupHash := OwnerGroupHash(sha1, obj.spec.ownerGroup)]
  }

  /** The first listed request that blocks a create: another name, not Failed. */
  function FirstConflict(items: seq<NamespaceRequest>, name: string): (r: Option<string>)
    ensures r.None? <==>
      forall i :: 0 <= i < |items| ==> items[i].name == name || items[i].status.phase == Failed
    ensures r.Some? ==> r.value != name && exists i :: (
      && 0 <= i < |items| && items[i].name == r.value && items[i].status.phase != Failed
      && forall j :: 0 <= j < i ==> items[j].name == name || items[j].status.phase == Failed)
  {
    if items == [] then None
    else if items[0].name == name || items[0].status.phase == Failed then
      var rest := FirstConflict(items[1..], name);
      assert forall i :: 1 <= i < |items| ==> items[i] == items[1..][i - 1];
      if rest.Some? then
        var i' :| (
          && 0 <= i' < |items[1..]| && items[1..][i'].name == rest.value
          && items[1..][i'].status.phase != Failed
          && forall j :: 0 <= j < i' ==> items[1..][j].name == name || items[1..][j].status.phase == Failed);
        assert items[i' + 1] == items[1..][i'];
        rest
      else rest
    else Some(items[0].name)
  }

  /** The uniqueness step of a create: requests first, then namespaces. */
  function Uniqueness(sha1: Sha1, c: Client, obj: NamespaceRequest): Response {
    var sel := Selector(sha1, obj);
    if c.faults.requestList then Errored(500, RequestListFailed)
    else match FirstConflict(MatchingRequests(c.snapshot.requests, sel), obj.name)
      case Some(n) => Denied(RequestExists(n))
      case None =>
        if c.faults.namespaceList then Errored(500, NamespaceListFailed)
        else
          var found := MatchingNamespaces(c.snapshot.namespaces, sel);
          if |found| > 0 then Denied(NamespaceExists(found[0].name)) else Allowed
  }

  /** The field checks of a create, on the trimmed spec, in their order. */
  function FieldDenial(s: Spec): Option<Denial> {
    if s.tenant == "" then Some(TenantRequired)
    else if s.ownerGroup == "" then Some(OwnerGroupRequired)
    else if |Utf8(s.ownerGroup)| > 63 then Some(OwnerGroupTooLong)
    else if s.env !in {EnvDev, EnvTest, EnvProd} then Some(EnvNotAllowed(s.env))
    else None
  }

  /** The verdict of validateCreate on a decoded object. */
  function CreateVerdict(sha1: Sha1, c: Client, user: UserInfo, obj: NamespaceRequest): Response {
    var s := Checked(obj.spec);
    match FieldDenial(s)
    case Some(d) => Denied(d)
    case None =>
      match Gates(c, user, s)
      case Some(r) => r
      case None => Uniqueness(sha1, c, obj)
  }

  /** The verdict of validateUpdate on the decoded new and old objects. */
  function UpdateVerdict(c: Client, user: UserInfo, newObj: NamespaceRequest, oldObj: NamespaceRequest): Response {
    if newObj.spec.tenant != oldObj.spec.tenant then Denied(Immutable("spec.tenant"))
    else if newObj.spec.env != oldObj.spec.env then Denied(Immutable("spec.env"))
    else if newObj.spec.ownerGroup != oldObj.spec.ownerGroup then Denied(Immutable("spec.ownerGroup"))
    else
      var s := Checked(newObj.spec);
      if s.tenant == "" || s.ownerGroup == "" then Denied(TenantOrOwnerGroupRequired)
      else match Gates(c, user, s)
        case Some(r) => r
        case None => Allowed
  }

  /** The verdict of Handle. */
  function HandleVerdict(sha1: Sha1, v: Validator, req: AdmissionRequest): Response {
    if v.client.None? then Errored(500, ClientNotInitialized)
    else if !v.decoderSet then Errored(500, DecoderNotInitialized)
    else match req.operation
      case Create =>
        if req.obj.None? then Errored(400, DecodeFailed)
        else CreateVerdict(sha1, v.client.value, req.user, req.obj.value)
      case Update =>
        if req.obj.None? || req.oldObj.None? then Errored(400, DecodeFailed)
        else UpdateVerdict(v.client.value, req.user, req.obj.value, req.oldObj.value)
      case _ => Allowed
  }

  /** The gates, walking the caller's groups with Contains and AnyGroupAllowed. */
  method CheckGates(c: Client, user: UserInfo, s: Spec) returns (r: Option<Response>)
    ensures r == Gates(c, user, s)
  {
    var read := GetTenant(c, s.tenant);
    if read.TenantAbsent? {
      return Some(Denied(TenantNotFound(s.tenant)));
    }
    if read.TenantReadError? {
      return Some(Errored(500, TenantGetFailed));
    }
    var allowed := AnyGroupAllowed(user.groups, read.tenant.allowedGroups);
    if !allowed {
      return Some(Denied(TenantForbidden(s.tenant)));
    }
    var adminGroup := s.tenant + ":ns-admin";
    var envGroup := s.tenant + ":" + s.env;
    var isAdmin := Contains(user.groups, adminGroup);
    var hasEnv := Contains(user.groups, envGroup);
    if !isAdmin && !hasEnv {
      return Some(Denied(EnvGroupMissing(envGroup, adminGroup)));
    }
    var owns := Contains(user.groups, s.ownerGroup);
    if !owns {
      return Some(Denied(OwnerGroupNotHeld(s.ownerGroup)));
    }
    return None;
  }

  /** The uniqueness step of validateCreate: the scan of the listed requests, then the
      namespace list. */
  method CheckUniqueness(sha1: Sha1, c: Client, obj: NamespaceRequest) returns (resp: Response)
    ensures resp == Uniqueness(sha1, c, obj)
  {
    var sel := Selector(sha1, obj);
    if c.faults.requestList {
      return Errored(500, RequestListFailed);
    }
    var reqList := MatchingRequests(c.snapshot.requests, sel);
    var i := 0;
    while i < |reqList|
      invariant 0 <= i <= |reqList|
      invariant FirstConflict(reqList[i..], obj.name) == FirstConflict(reqList, obj.name)
    {
      var exist := reqList[i];
      assert reqList[i..][0] == exist && reqList[i..][1..] == reqList[i + 1..];
      if exist.name != obj.name && exist.status.phase != Failed {
        return Denied(RequestExists(exist.name));
      }
      i := i + 1;
    }
    if c.faults.namespaceList {
      return Errored(500, NamespaceListFailed);
    }
    var nsList := MatchingNamespaces(c.snapshot.namespaces, sel);
    if |nsList| > 0 {
      return Denied(NamespaceExists(nsList[0].name));
    }
    return Allowed;
  }

  /** validateCreate on a decoded object. */
  method ValidateCreate(sha1: Sha1, c: Client, user: UserInfo, obj: NamespaceRequest) returns (resp: Response)
    ensures resp == CreateVerdict(sha1, c, user, obj)
  {
    var s := Checked(obj.spec);
    if s.tenant == "" {
      return Denied(TenantRequired);
    }
    if s.ownerGroup == "" {
      return Denied(OwnerGroupRequired);
    }
    if |Utf8(s.ownerGroup)| > 63 {
      return Denied(OwnerGroupTooLong);
    }
    if s.env != EnvDev && s.env != EnvTest && s.env != EnvProd {
      return Denied(EnvNotAllowed(s.env));
    }
    var gate := CheckGates(c, user, s);
    if gate.Some? {
      return gate.value;
    }
    resp := CheckUniqueness(sha1, c, obj);
  }

  /** validateUpdate on the decoded new and old objects. */
  method ValidateUpdate(c: Client, user: UserInfo, newObj: NamespaceRequest, oldObj: NamespaceRequest)
    returns (resp: Response)
    ensures resp == UpdateVerdict(c, user, newObj, oldObj)
  {
    if newObj.spec.tenant != oldObj.spec.tenant {
      return Denied(Immutable("spec.tenant"));
    }
    if newObj.spec.env != oldObj.spec.env {
      return Denied(Immutable("spec.env"));
    }
    if newObj.spec.ownerGroup != oldObj.spec.ownerGroup {
      return Denied(Immutable("spec.ownerGroup"));
    }
    var s := Checked(newObj.spec);
    if s.tenant == "" || s.ownerGroup == "" {
      return Denied(TenantOrOwnerGroupRequired);
    }
    var gate := CheckGates(c, user, s);
    if gate.Some? {
      return gate.value;
    }
    return Allowed;
  }

  /** Handle. */
  method Handle(sha1: Sha1, v: Validator, req: AdmissionRequest) returns (resp: Response)
    ensures resp == HandleVerdict(sha1, v, req)
  {
    if v.client.None? {
      return Errored(500, ClientNotInitialized);
    }
    if !v.decoderSet {
      return Errored(500, DecoderNotInitialized);
    }
    match req.operation
    case Create =>
      if req.obj.None? {
        return Errored(400, DecodeFailed);
      }
      resp := ValidateCreate(sha1, v.client.value, req.user, req.obj.value);
    case Update =>
      if req.obj.None? || req.oldObj.None? {
        return Errored(400, DecodeFailed);
      }
      resp := ValidateUpdate(v.client.value, req.user, req.obj.value, req.oldObj.value);
    case _ =>
      resp := Allowed;
  }

  /** The allowed set holds exactly the trimmed, non-empty allowed entries. */
  lemma {:induction false} AllowedSetMembers(allowed: seq<string>, x: string)
    ensures x in AllowedSet(allowed) <==>
      exists j :: 0 <= j < |allowed| && TrimSpace(allowed[j]) != "" && TrimSpace(allowed[j]) == x
  {
    if allowed != [] {
      var init := allowed[..|allowed| - 1];
      AllowedSetMembers(init, x);
      assert forall j :: 0 <= j < |init| ==> init[j] == allowed[j];
    }
  }

  /** anyGroupAllowed holds exactly when some caller group, untrimmed, equals some
      trimmed non-empty allowed entry; an empty allowed list therefore admits nobody. */
  lemma GroupsAllowedIff(userGroups: seq<string>, allowed: seq<string>)
    ensures GroupsAllowed(userGroups, allowed) <==>
      exists i, j :: 0 <= i < |userGroups| && 0 <= j < |allowed|
        && TrimSpace(allowed[j]) != "" && userGroups[i] == TrimSpace(allowed[j])
    ensures allowed == [] ==> !GroupsAllowed(userGroups, allowed)
  {
    if GroupsAllowed(userGroups, allowed) {
      var g :| g in userGroups && g in AllowedSet(allowed);
      AllowedSetMembers(allowed, g);
      var i :| 0 <= i < |userGroups| && userGroups[i] == g;
    }
    if exists i, j :: 0 <= i < |userGroups| && 0 <= j < |allowed|
        && TrimSpace(allowed[j]) != "" && userGroups[i] == TrimSpace(allowed[j]) {
      var i, j :| 0 <= i < |userGroups| && 0 <= j < |allowed|
        && TrimSpace(allowed[j]) != "" && userGroups[i] == TrimSpace(allowed[j]);
      AllowedSetMembers(allowed, userGroups[i]);
    }
  }

  /** Allowed entries are trimmed, caller groups are not. */
  lemma CallerGroupsNotTrimmed()
    ensures GroupsAllowed(["ops"], [" ops "])
    ensures !GroupsAllowed([" ops"], ["ops"])
  {
    assert TrimLeftSpace(" ops ") == TrimLeftSpace("ops ");
    assert TrimRightSpace("ops ") == TrimRightSpace("ops");
    TrimSpaceOfTrimmed("ops");
    assert AllowedSet([" ops "]) == {"ops"} by {
      assert [" ops "][..0] == [];
    }
    assert AllowedSet(["ops"]) == {"ops"} by {
      assert ["ops"][..0] == [];
    }
  }

  /** The field checks come first, in their order, on the trimmed and defaulted spec,
      and decide alone: the verdict does not depend on the store, its faults or the caller. */
  lemma FieldChecksPrecedeReads(sha1: Sha1, c: Client, c': Client, user: UserInfo, user': UserInfo,
                                obj: NamespaceRequest)
    ensures var t, e, og := TrimSpace(obj.spec.tenant), TrimSpace(obj.spec.env), TrimSpace(obj.spec.ownerGroup);
      && (t == "" ==> CreateVerdict(sha1, c, user, obj) == Denied(TenantRequired))
      && (t != "" && og == "" ==> CreateVerdict(sha1, c, user, obj) == Denied(OwnerGroupRequired))
      && (t != "" && og != "" && |Utf8(og)| > 63 ==>
            CreateVerdict(sha1, c, user, obj) == Denied(OwnerGroupTooLong))
      && (t != "" && og != "" && |Utf8(og)| <= 63 && e !in {"", EnvDev, EnvTest, EnvProd} ==>
            CreateVerdict(sha1, c, user, obj) == Denied(EnvNotAllowed(e)))
    ensures FieldDenial(Checked(obj.spec)).Some? ==>
      CreateVerdict(sha1, c, user, obj) == CreateVerdict(sha1, c', user', obj)
  {
  }

  /** Tenant lookup: NotFound is a denial, any other read error is Errored(500); neither
      path allows, on create or on update. */
  lemma TenantLookupNeverAllows(sha1: Sha1, c: Client, user: UserInfo, obj: NamespaceRequest,
                                oldObj: NamespaceRequest)
    requires oldObj.spec == obj.spec
    ensures var t := Checked(obj.spec).tenant;
      && (FieldDenial(Checked(obj.spec)).None? ==>
            && (c.faults.tenantGet ==> CreateVerdict(sha1, c, user, obj) == Errored(500, TenantGetFailed))
            && (!c.faults.tenantGet && t !in c.snapshot.tenants ==>
                  CreateVerdict(sha1, c, user, obj) == Denied(TenantNotFound(t))))
      && (t != "" && Checked(obj.spec).ownerGroup != "" ==>
            && (c.faults.tenantGet ==> UpdateVerdict(c, user, obj, oldObj) == Errored(500, TenantGetFailed))
            && (!c.faults.tenantGet && t !in c.snapshot.tenants ==>
                  UpdateVerdict(c, user, obj, oldObj) == Denied(TenantNotFound(t))))
  {
  }

  /** The uniqueness check lets a create through exactly when both lists succeed, every
      live request carrying the selector labels is the object itself, and no namespace
      carries them. */
  lemma UniquenessAllowedIff(sha1: Sha1, c: Client, obj: NamespaceRequest)
    ensures Uniqueness(sha1, c, obj) == Allowed <==>
      var sel := Selector(sha1, obj);
      && !c.faults.requestList && !c.faults.namespaceList
      && (forall r :: r in c.snapshot.requests && Selects(sel, r.labels) ==>
            r.name == obj.name || r.status.phase == Failed)
      && (forall n :: n in c.snapshot.namespaces ==> !Selects(sel, n.labels))
  {
    var sel := Selector(sha1, obj);
    var items := MatchingRequests(c.snapshot.requests, sel);
    var found := MatchingNamespaces(c.snapshot.namespaces, sel);
    if FirstConflict(items, obj.name).None? {
      forall r | r in c.snapshot.requests && Selects(sel, r.labels)
        ensures r.name == obj.name || r.status.phase == Failed
      {
        var i :| 0 <= i < |items| && items[i] == r;
      }
    } else {
      var i :| 0 <= i < |items| && !(items[i].name == obj.name || items[i].status.phase == Failed);
      assert items[i] in items;
    }
    if |found| > 0 {
      assert found[0] in found;
    }
  }

  /** What the two listings of the uniqueness step decide, in their order: a failed
      request List is a 500 error, never a denial; a live request with another name and
      the same labels is a RequestExists denial naming such a request, before the namespace
      List is made; only then can the namespace List fail, with a 500 error; and a labelled
      namespace is a NamespaceExists denial naming the first one listed. */
  predicate ListingsDecide(u: Response, sha1: Sha1, c: Client, obj: NamespaceRequest) {
    var sel := Selector(sha1, obj);
    var rs, ns := c.snapshot.requests, c.snapshot.namespaces;
    && (c.faults.requestList ==> u == Errored(500, RequestListFailed))
    && (!c.faults.requestList
        && (exists r :: r in rs && Selects(sel, r.labels) && r.name != obj.name && r.status.phase != Failed) ==>
          && u.Denied? && u.reason.RequestExists?
          && exists r :: r in rs && Selects(sel, r.labels) && r.name == u.reason.existing
                       && r.name != obj.name && r.status.phase != Failed)
    && (!c.faults.requestList
        && (forall r :: r in rs && Selects(sel, r.labels) ==> r.name == obj.name || r.status.phase == Failed) ==>
          && (c.faults.namespaceList ==> u == Errored(500, NamespaceListFailed))
          && (!c.faults.namespaceList && (exists n :: n in ns && Selects(sel, n.labels)) ==>
                && u == Denied(NamespaceExists(MatchingNamespaces(ns, sel)[0].name))
                && exists n :: n in ns && Selects(sel, n.labels) && n.name == u.reason.example))
  }

  /** The uniqueness step's outcomes other than Allowed. */
  lemma UniquenessOutcomes(sha1: Sha1, c: Client, obj: NamespaceRequest)
    ensures ListingsDecide(Uniqueness(sha1, c, obj), sha1, c, obj)
  {
    var sel := Selector(sha1, obj);
    var items := MatchingRequests(c.snapshot.requests, sel);
    var found := MatchingNamespaces(c.snapshot.namespaces, sel);
    var u := Uniqueness(sha1, c, obj);
    if c.faults.requestList { return; }
    var first := FirstConflict(items, obj.name);
    if first.Some? {
      var i :| 0 <= i < |items| && items[i].name == first.value && items[i].status.phase != Failed;
      assert items[i] in items;
    } else {
      forall r | r in c.snapshot.requests && Selects(sel, r.labels)
        ensures r.name == obj.name || r.status.phase == Failed
      {
        var i :| 0 <= i < |items| && items[i] == r;
      }
      if !c.faults.namespaceList && |found| > 0 {
        assert found[0] in found;
      }
    }
  }

  /** Once the field checks and the gates pass, the listings decide a create as above. */
  lemma CreateListingsOutcomes(sha1: Sha1, c: Client, user: UserInfo, obj: NamespaceRequest)
    requires FieldDenial(Checked(obj.spec)).None?
    requires Gates(c, user, Checked(obj.spec)).None?
    ensures ListingsDecide(CreateVerdict(sha1, c, user, obj), sha1, c, obj)
  {
    UniquenessOutcomes(sha1, c, obj);
  }

  /** The shared gates pass exactly when the tenant read succeeds, the tenant exists, the
      caller is in an allowed group, holds the environment or admin group and holds the
      owner group. */
  lemma GatesPassIff(c: Client, user: UserInfo, s: Spec)
    ensures Gates(c, user, s).None? <==>
      && !c.faults.tenantGet && s.tenant in c.snapshot.tenants
      && GroupsAllowed(user.groups, c.snapshot.tenants[s.tenant].allowedGroups)
      && EnvGatePasses(user.groups, s)
      && s.ownerGroup in user.groups
  {
  }

  /** A create is allowed exactly when every check passed: the fields are valid, the three
      reads succeed, the tenant exists, the caller is in an allowed group, holds the
      environment or admin group and the owner group, no other live request carries the
      same selector labels and no namespace does. */
  lemma CreateAllowedIff(sha1: Sha1, c: Client, user: UserInfo, obj: NamespaceRequest)
    ensures CreateVerdict(sha1, c, user, obj) == Allowed <==>
      var s := Checked(obj.spec);
      var sel := Selector(sha1, obj);
      && s.tenant != "" && s.ownerGroup != "" && |Utf8(s.ownerGroup)| <= 63
      && s.env in {EnvDev, EnvTest, EnvProd}
      && !c.faults.tenantGet && s.tenant in c.snapshot.tenants
      && GroupsAllowed(user.groups, c.snapshot.tenants[s.tenant].allowedGroups)
      && (s.tenant + ":ns-admin" in user.groups || s.tenant + ":" + s.env in user.groups)
      && s.ownerGroup in user.groups
      && !c.faults.requestList && !c.faults.namespaceList
      && (forall r :: r in c.snapshot.requests && Selects(sel, r.labels) ==>
            r.name == obj.name || r.status.phase == Failed)
      && (forall n :: n in c.snapshot.namespaces ==> !Selects(sel, n.labels))
  {
    var s := Checked(obj.spec);
    GatesPassIff(c, user, s);
    UniquenessAllowedIff(sha1, c, obj);
    assert Gates(c, user, s).Some? ==> Gates(c, user, s).value != Allowed;
  }

  /** A stored request that went through Default with the same trimmed tenant, env and
      owner group carries the labels the uniqueness selector asks for. */
  lemma DefaultedRequestSelected(sha1: Sha1, stored: NamespaceRequest, obj: NamespaceRequest)
    requires Checked(stored.spec) == Checked(obj.spec)
    ensures Selects(Selector(sha1, obj), Defaulted(sha1, stored).labels)
  {
    DefaultedLabels(sha1, stored);
    ShortHashIgnoresSurroundingSpace(sha1, obj.spec.ownerGroup);
    ShortHashIgnoresSurroundingSpace(sha1, stored.spec.ownerGroup);
  }

  /** Once the gates pass and the request list can be read, a live request stored under
      another name for the same trimmed (tenant, env, owner group) denies the create. */
  lemma DuplicateRequestDenied(sha1: Sha1, c: Client, user: UserInfo, obj: NamespaceRequest,
                               stored: NamespaceRequest)
    requires FieldDenial(Checked(obj.spec)).None?
    requires Gates(c, user, Checked(obj.spec)).None?
    requires !c.faults.requestList
    requires Defaulted(sha1, stored) in c.snapshot.requests
    requires Checked(stored.spec) == Checked(obj.spec)
    requires stored.name != obj.name && stored.status.phase != Failed
    ensures CreateVerdict(sha1, c, user, obj).Denied?
    ensures CreateVerdict(sha1, c, user, obj).reason.RequestExists?
  {
    DefaultedRequestSelected(sha1, stored, obj);
    var items := MatchingRequests(c.snapshot.requests, Selector(sha1, obj));
    var d := Defaulted(sha1, stored);
    assert d in items;
    var i :| 0 <= i < |items| && items[i] == d;
  }

  /** The validator checks the trimmed, defaulted spec, so an object gets the same verdict
      before and after the mutating stage. */
  lemma CreateVerdictIgnoresDefaulting(sha1: Sha1, c: Client, user: UserInfo, obj: NamespaceRequest)
    ensures CreateVerdict(sha1, c, user, Defaulted(sha1, obj)) == CreateVerdict(sha1, c, user, obj)
  {
    DefaultedSpecIdempotent(obj.spec);
    DefaultedSpecIsNormal(obj.spec);
    ShortHashIgnoresSurroundingSpace(sha1, obj.spec.ownerGroup);
    assert Selector(sha1, Defaulted(sha1, obj)) == Selector(sha1, obj);
  }

  /** On update, a change to the raw tenant, env or owner group is denied before any read,
      whoever the caller is. */
  lemma UpdateImmutable(c: Client, c': Client, user: UserInfo, user': UserInfo,
                        newObj: NamespaceRequest, oldObj: NamespaceRequest)
    requires newObj.spec.tenant != oldObj.spec.tenant || newObj.spec.env != oldObj.spec.env
          || newObj.spec.ownerGroup != oldObj.spec.ownerGroup
    ensures UpdateVerdict(c, user, newObj, oldObj).Denied?
    ensures UpdateVerdict(c, user, newObj, oldObj).reason.Immutable?
    ensures UpdateVerdict(c, user, newObj, oldObj) == UpdateVerdict(c', user', newObj, oldObj)
  {
  }

  /** The update path performs neither uniqueness list: the listed objects and list
      faults do not influence its verdict. */
  lemma UpdateNeverLists(c: Client, user: UserInfo, newObj: NamespaceRequest, oldObj: NamespaceRequest,
                         requests: seq<NamespaceRequest>, namespaces: seq<Namespace>,
                         requestList: bool, namespaceList: bool)
    ensures var c' := Client(c.snapshot.(requests := requests, namespaces := namespaces),
                             c.faults.(requestList := requestList, namespaceList := namespaceList));
      UpdateVerdict(c, user, newObj, oldObj) == UpdateVerdict(c', user, newObj, oldObj)
  {
  }

  /** Handle allows every operation other than Create and Update once configured, and
      allows a Create or Update only when the matching chain does. */
  lemma HandleDispatch(sha1: Sha1, v: Validator, req: AdmissionRequest)
    ensures v.client.Some? && v.decoderSet && req.operation in {Delete, Connect} ==>
      HandleVerdict(sha1, v, req) == Allowed
    ensures HandleVerdict(sha1, v, req) == Allowed && req.operation == Create ==>
      v.client.Some? && req.obj.Some? && CreateVerdict(sha1, v.client.value, req.user, req.obj.value) == Allowed
    ensures HandleVerdict(sha1, v, req) == Allowed && req.operation == Update ==>
      v.client.Some? && req.obj.Some? && req.oldObj.Some?
      && UpdateVerdict(v.client.value, req.user, req.obj.value, req.oldObj.value) == Allowed
    ensures v.client.None? || !v.decoderSet ==> HandleVerdict(sha1, v, req).Errored?
  {
  }
}
