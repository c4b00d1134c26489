/**
 * The mutating admission stage (internal/webhook/v1alpha1/namespacerequest_webhook.go):
 * NamespaceRequestCustomDefaulter.Default trims the spec, defaults the environment and
 * derives the selector labels in place; OwnerGroupHash is the package's own copy of
 * the fingerprint.
 */
module Defaulting {
  import opened Wrappers
  import opened GoStrings
  import opened Fingerprint
  import opened Api

  /** OwnerGroupHash: trim, SHA-1, hex, first 16 characters, written out again in the webhook package. */
  function OwnerGroupHash(sha1: Sha1, ownerGroup: string): (h: string)
    ensures h == ShortHash16(sha1, ownerGroup)
  {
    HexEncode(sha1(Utf8(TrimSpace(ownerGroup))))[..16]
  }

  /** The spec after Default: the three fields trimmed, an empty environment made "dev". */
  function DefaultedSpec(s: Spec): Spec {
    Spec(TrimSpace(s.tenant), DefaultEnv(TrimSpace(s.env)), TrimSpace(s.ownerGroup))
  }

  /** The four labels Default derives from a (defaulted) spec. */
  function DerivedLabels(sha1: Sha1, s: Spec): Labels {
    map[LabelTenant := s.tenant, LabelEnv := s.env,
        LabelOwnerGroupHash := OwnerGroupHash(sha1, s.ownerGroup), LabelManaged := "true"]
  }

  /** The request as Default leaves it. */
  function Defaulted(sha1: Sha1, v: NamespaceRequest): NamespaceRequest {
    var spec := DefaultedSpec(v.spec);
    v.(spec := spec, labels := v.labels + DerivedLabels(sha1, spec))
  }

  /** A NamespaceRequest object that the webhook mutates in place. */
  class NamespaceRequestObject {
    var name: string
    var labels: Labels
    var deleting: bool
    var spec: Spec
    var status: Status

    function Value(): NamespaceRequest
      reads this
    {
      NamespaceRequest(name, labels, deleting, spec, status)
    }

    constructor (v: NamespaceRequest)
      ensures Value() == v
    {
      name, labels, deleting, spec, status := v.name, v.labels, v.deleting, v.spec, v.status;
    }
  }

  /** The runtime.Object handed to the defaulter: a NamespaceRequest or some other kind. */
  datatype RuntimeObject = RequestObject(obj: NamespaceRequestObject) | OtherObject(typeName: string)

  /** NamespaceRequestCustomDefaulter.Default. */
  method Default(sha1: Sha1, o: RuntimeObject) returns (err: Option<string>)
    modifies if o.RequestObject? then {o.obj} else {}
    ensures o.OtherObject? ==> err == Some("expected NamespaceRequest but got " + o.typeName)
    ensures o.RequestObject? ==> err.None? && o.obj.Value() == Defaulted(sha1, old(o.obj.Value()))
  {
    if o.OtherObject? {
      return Some("expected NamespaceRequest but got " + o.typeName);
    }
    var nr := o.obj;
    ghost var before := nr.Value();
    ghost var spec := DefaultedSpec(before.spec);

    nr.spec := nr.spec.(tenant := TrimSpace(nr.spec.tenant));
    nr.spec := nr.spec.(env := TrimSpace(nr.spec.env));
    nr.spec := nr.spec.(ownerGroup := TrimSpace(nr.spec.ownerGroup));

    if nr.spec.env == "" {
      nr.spec := nr.spec.(env := EnvDev);
    }
    assert nr.spec == spec;
    DerivedLabelsInSteps(sha1, nr.labels, spec);

    nr.labels := nr.labels[LabelTenant := nr.spec.tenant];
    nr.labels := nr.labels[LabelEnv := nr.spec.env];
    nr.labels := nr.labels[LabelOwnerGroupHash := OwnerGroupHash(sha1, nr.spec.ownerGroup)];
    nr.labels := nr.labels[LabelManaged := "true"];
    err := None;
  }

  /** Setting the four labels one at a time, as Default does, overlays DerivedLabels. */
  lemma DerivedLabelsInSteps(sha1: Sha1, m: Labels, s: Spec)
    ensures m[LabelTenant := s.tenant][LabelEnv := s.env]
             [LabelOwnerGroupHash := OwnerGroupHash(sha1, s.ownerGroup)][LabelManaged := "true"]
            == m + DerivedLabels(sha1, s)
  {
  }

  /** The defaulted environment is already trimmed. */
  lemma DefaultEnvTrimmed(env: string)
    ensures TrimSpace(DefaultEnv(TrimSpace(env))) == DefaultEnv(TrimSpace(env))
  {
    if TrimSpace(env) == "" {
      TrimSpaceOfTrimmed(EnvDev);
    } else {
      TrimSpaceIdempotent(env);
    }
  }

  /** After Default the spec fields carry no surrounding space and the environment is
      set, to "dev" exactly when it was blank or "dev". */
  lemma DefaultedSpecIsNormal(s: Spec)
    ensures TrimSpace(DefaultedSpec(s).tenant) == DefaultedSpec(s).tenant
    ensures TrimSpace(DefaultedSpec(s).env) == DefaultedSpec(s).env
    ensures TrimSpace(DefaultedSpec(s).ownerGroup) == DefaultedSpec(s).ownerGroup
    ensures DefaultedSpec(s).env != ""
    ensures DefaultedSpec(s).env == EnvDev <==> TrimSpace(s.env) in {"", EnvDev}
  {
    TrimSpaceIdempotent(s.tenant);
    TrimSpaceIdempotent(s.ownerGroup);
    DefaultEnvTrimmed(s.env);
  }

  /** Defaulting a defaulted spec changes nothing. */
  lemma DefaultedSpecIdempotent(s: Spec)
    ensures DefaultedSpec(DefaultedSpec(s)) == DefaultedSpec(s)
  {
    DefaultedSpecIsNormal(s);
  }

  /** Default overwrites exactly the four derived labels from the spec, whatever the caller
      put there, and keeps every other label, so the raw owner group never reaches a label. */
  lemma DefaultedLabels(sha1: Sha1, v: NamespaceRequest)
    ensures var d := Defaulted(sha1, v);
      && d.labels[LabelTenant] == d.spec.tenant
      && d.labels[LabelEnv] == d.spec.env
      && d.labels[LabelOwnerGroupHash] == ShortHash16(sha1, v.spec.ownerGroup)
      && d.labels[LabelManaged] == "true"
      && (forall k :: k !in DerivedLabels(sha1, d.spec) ==>
            (k in d.labels <==> k in v.labels) && (k in v.labels ==> d.labels[k] == v.labels[k]))
      && Lookup(d.labels, LabelOwnerGroup) == Lookup(v.labels, LabelOwnerGroup)
  {
    ShortHashIgnoresSurroundingSpace(sha1, v.spec.ownerGroup);
    DerivedOverlay(sha1, v.labels, DefaultedSpec(v.spec));
  }

  /** Overlaying the derived labels sets the four of them and keeps every other label. */
  lemma DerivedOverlay(sha1: Sha1, m: Labels, s: Spec)
    ensures var l := m + DerivedLabels(sha1, s);
      && l[LabelTenant] == s.tenant && l[LabelEnv] == s.env
      && l[LabelOwnerGroupHash] == OwnerGroupHash(sha1, s.ownerGroup) && l[LabelManaged] == "true"
      && (forall k :: k !in DerivedLabels(sha1, s) ==> (k in l <==> k in m) && (k in m ==> l[k] == m[k]))
      && Lookup(l, LabelOwnerGroup) == Lookup(m, LabelOwnerGroup)
  {
  }

  /** Applying Default twice gives the same object as applying it once. */
  lemma DefaultIdempotent(sha1: Sha1, v: NamespaceRequest)
    ensures Defaulted(sha1, Defaulted(sha1, v)) == Defaulted(sha1, v)
  {
    DefaultedSpecIdempotent(v.spec);
    var d := Defaulted(sha1, v);
    var derived := DerivedLabels(sha1, d.spec);
    assert (d.labels + derived) == d.labels;
  }
}
