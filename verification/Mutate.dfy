/** How an existing cluster object is brought to its desired form (internal/manifests/mutate.go). */
module Mutate {
  import opened Wrappers

  /** Content that is only ever copied as a whole. */
  type Value = string

  type Table = map<string, string>

  datatype Claim = Claim(typeMeta: Value, name: string, labels: Table, annotations: Table, spec: Value)

  datatype WholeKind = ServiceMonitor | Route | PrometheusRule | GrafanaDatasource | CredentialsRequest
    | NetworkPolicy | PodDisruptionBudget

  datatype ConfigMapData = ConfigMapData(data: Table, binaryData: Table)
  datatype SecretData = SecretData(data: Table, secretType: Value)
  datatype ServiceSpec = ServiceSpec(ports: Value, selector: Table, other: Value)
  datatype BindingData = BindingData(subjects: Value, roleRef: Value)
  datatype DeploymentSpec = DeploymentSpec(selector: Table, replicas: Value, template: Value, strategy: Table)
  datatype StatefulSetSpec = StatefulSetSpec(selector: Table, podManagementPolicy: Value, replicas: Value,
                                             claims: seq<Claim>, template: Value)
  datatype IngressSpec = IngressSpec(defaultBackend: Value, rules: Value, tls: Value, className: Value)

  datatype Content =
    | ConfigMap(cm: ConfigMapData)
    | Secret(secret: SecretData)
    | Service(svc: ServiceSpec)
    | ServiceAccount(account: Value)
    | ClusterRole(clusterRules: Value)
    | Role(rules: Value)
    | ClusterRoleBinding(crb: BindingData)
    | RoleBinding(rb: BindingData)
    | Deployment(dpl: DeploymentSpec)
    | StatefulSet(sts: StatefulSetSpec)
    | Ingress(ing: IngressSpec)
    | Whole(whole: WholeKind, spec: Value)
    | Unsupported(body: Value)
  {
    function Kind(): Kind {
      match this
      case ConfigMap(_) => KConfigMap
      case Secret(_) => KSecret
      case Service(_) => KService
      case ServiceAccount(_) => KServiceAccount
      case ClusterRole(_) => KClusterRole
      case Role(_) => KRole
      case ClusterRoleBinding(_) => KClusterRoleBinding
      case RoleBinding(_) => KRoleBinding
      case Deployment(_) => KDeployment
      case StatefulSet(_) => KStatefulSet
      case Ingress(_) => KIngress
      case Whole(w, _) => KWhole(w)
      case Unsupported(_) => KUnsupported
    }
  }

  datatype Kind = KConfigMap | KSecret | KService | KServiceAccount | KClusterRole | KRole | KClusterRoleBinding
    | KRoleBinding | KDeployment | KStatefulSet | KIngress | KWhole(whole: WholeKind) | KUnsupported

  /** uid 0 and no creation timestamp mark an object the API server has not created. */
  datatype Object = Object(uid: nat, annotations: Table, labels: Table, owner: Option<string>, content: Content)

  datatype MutateError = ImmutableSelector | ImmutableClaims | MissingMutate

  const INJECT_CA_BUNDLE := "service.beta.openshift.io/inject-cabundle"

  // ---------- specification ----------

  /** mergeWithOverride on maps: source values win unless they are empty and would hide something. */
  function Merge(dst: Table, src: Table): Table {
    map k | k in dst.Keys + src.Keys :: if k in src && (src[k] != "" || k !in dst) then src[k] else dst[k]
  }

  /** The parts of a claim template the code compares. */
  predicate SameClaim(a: Claim, b: Claim) {
    a.name == b.name && a.annotations == b.annotations && a.spec == b.spec
  }

  ghost predicate SameClaims(a: seq<Claim>, b: seq<Claim>) {
    |a| == |b| && forall i :: 0 <= i < |a| ==> SameClaim(a[i], b[i])
  }

  ghost function StatefulSetRefusal(e: StatefulSetSpec, d: StatefulSetSpec): Option<MutateError> {
    if d.selector != e.selector then Some(ImmutableSelector)
    else if !SameClaims(d.claims, e.claims) then Some(ImmutableClaims)
    else None
  }

  /** Why there is no update, if there is none. */
  ghost function Refusal(isNew: bool, e: Content, d: Content): Option<MutateError> {
    if d.Unsupported? then Some(MissingMutate)
    else if !isNew && e.StatefulSet? && d.StatefulSet? then StatefulSetRefusal(e.sts, d.sts)
    else None
  }

  ghost predicate Refused(e: Object, d: Object) { Refusal(e.uid == 0, e.content, d.content).Some? }

  function NewContent(isNew: bool, c: Content, d: Object): Content
    requires c.Kind() == d.content.Kind()
  {
    match d.content
    case ConfigMap(cm) => if INJECT_CA_BUNDLE in d.annotations then c else d.content
    case Secret(s) => Secret(c.secret.(data := s.data))
    case Service(svc) => Service(c.svc.(ports := svc.ports, selector := Merge(c.svc.selector, svc.selector)))
    case ServiceAccount(_) => c
    case ClusterRoleBinding(crb) => ClusterRoleBinding(c.crb.(subjects := crb.subjects))
    case RoleBinding(rb) => RoleBinding(c.rb.(subjects := rb.subjects))
    case Deployment(dpl) =>
      Deployment(dpl.(selector := if isNew then dpl.selector else c.dpl.selector,
                      strategy := Merge(c.dpl.strategy, dpl.strategy)))
    case Ingress(ing) => Ingress(ing.(className := c.ing.className))
    case Unsupported(_) => c
    case _ => d.content
  }

  predicate ReplacesMeta(c: Content) {
    c.Secret? || c.ClusterRole? || c.Role? || c.ClusterRoleBinding? || c.RoleBinding? || c.Whole?
  }

  predicate KeepsLabels(c: Content) { c.Service? || c.Deployment? || c.StatefulSet? || c.Unsupported? }

  predicate KeepsAnnotations(c: Content) { KeepsLabels(c) || c.ServiceAccount? }

  function Mutated(e: Object, d: Object): Object
    requires e.content.Kind() == d.content.Kind()
  {
    Object(e.uid,
           if KeepsAnnotations(d.content) then Merge(e.annotations, d.annotations) else d.annotations,
           if KeepsLabels(d.content) then Merge(e.labels, d.labels) else d.labels,
           if d.owner.Some? then d.owner else e.owner,
           NewContent(e.uid == 0, e.content, d))
  }

  // ---------- the code, step by step ----------

  /** statefulSetVolumeClaimTemplatesChanged. */
  method ClaimTemplatesChanged(existing: seq<Claim>, desired: seq<Claim>) returns (changed: bool)
    ensures changed <==> !SameClaims(desired, existing)
  {
    if |desired| != |existing| { return true; }
    for i := 0 to |desired|
      invariant forall j :: 0 <= j < i ==> SameClaim(desired[j], existing[j])
    {
      if desired[i].name != existing[i].name || desired[i].annotations != existing[i].annotations
         || desired[i].spec != existing[i].spec
      {
        return true;
      }
    }
    return false;
  }

  /** The local copy of an object on which a mutate function works. */
  class LiveObject {
    var uid: nat
    var annotations: Table
    var labels: Table
    var owner: Option<string>
    var content: Content

    constructor (o: Object)
      ensures State() == o
    {
      uid, annotations, labels, owner, content := o.uid, o.annotations, o.labels, o.owner, o.content;
    }

    function State(): Object
      reads this
    {
      Object(uid, annotations, labels, owner, content)
    }

    /** Overwritten by what the API server returned. */
    method Assign(o: Object)
      modifies this
      ensures State() == o
    {
      uid, annotations, labels, owner, content := o.uid, o.annotations, o.labels, o.owner, o.content;
    }

    method MutateConfigMap(annotations: Table, labels: Table, desired: ConfigMapData)
      requires content.ConfigMap?
      modifies this
      ensures State() == old(State()).(annotations := annotations, labels := labels,
                content := if INJECT_CA_BUNDLE in annotations then old(content) else ConfigMap(desired))
    {
      this.annotations := annotations;
      this.labels := labels;
      if INJECT_CA_BUNDLE in annotations { return; }
      content := ConfigMap(content.cm.(binaryData := desired.binaryData));
      content := ConfigMap(content.cm.(data := desired.data));
    }

    method MutateService(desired: ServiceSpec)
      requires content.Service?
      modifies this`content
      ensures content == Service(old(content).svc.(ports := desired.ports,
                                                   selector := Merge(old(content).svc.selector, desired.selector)))
    {
      content := Service(content.svc.(ports := desired.ports));
      content := Service(content.svc.(selector := Merge(content.svc.selector, desired.selector)));
    }

    method MutateIngress(annotations: Table, labels: Table, desired: IngressSpec)
      requires content.Ingress?
      modifies this
      ensures State() == old(State()).(annotations := annotations, labels := labels,
                                       content := Ingress(desired.(className := old(content).ing.className)))
    {
      this.labels := labels;
      this.annotations := annotations;
      content := Ingress(content.ing.(defaultBackend := desired.defaultBackend));
      content := Ingress(content.ing.(rules := desired.rules));
      content := Ingress(content.ing.(tls := desired.tls));
    }

    /** The selector of a Deployment is set only on a new object. */
    method MutateDeployment(desired: DeploymentSpec)
      requires content.Deployment?
      modifies this`content
      ensures var selector := if uid == 0 then desired.selector else old(content).dpl.selector;
              content == Deployment(desired.(selector := selector,
                                             strategy := Merge(old(content).dpl.strategy, desired.strategy)))
    {
      if uid == 0 { content := Deployment(content.dpl.(selector := desired.selector)); }
      content := Deployment(content.dpl.(replicas := desired.replicas));
      content := Deployment(content.dpl.(template := desired.template));
      content := Deployment(content.dpl.(strategy := Merge(content.dpl.strategy, desired.strategy)));
    }

    /** The claim templates are overwritten field by field. */
    method MutateStatefulSet(desired: StatefulSetSpec) returns (err: Option<MutateError>)
      requires content.StatefulSet?
      requires uid == 0 ==> |content.sts.claims| == |desired.claims|
      modifies this`content
      ensures err == if uid == 0 then None else StatefulSetRefusal(old(content).sts, desired)
      ensures content == if err.None? then StatefulSet(desired) else old(content)
    {
      if uid != 0 {
        if desired.selector != content.sts.selector { return Some(ImmutableSelector); }
        var changed := ClaimTemplatesChanged(content.sts.claims, desired.claims);
        if changed { return Some(ImmutableClaims); }
      }
      content := StatefulSet(content.sts.(selector := desired.selector));
      content := StatefulSet(content.sts.(podManagementPolicy := desired.podManagementPolicy));
      content := StatefulSet(content.sts.(replicas := desired.replicas));
      var claims := content.sts.claims;
      for i := 0 to |claims|
        invariant |claims| == |desired.claims|
        invariant forall j :: 0 <= j < i ==> claims[j] == desired.claims[j]
      {
        var want := desired.claims[i];
        claims := claims[i := claims[i].(typeMeta := want.typeMeta)];
        claims := claims[i := claims[i].(name := want.name, labels := want.labels, annotations := want.annotations)];
        claims := claims[i := claims[i].(spec := want.spec)];
      }
      assert claims == desired.claims;
      content := StatefulSet(content.sts.(claims := claims));
      content := StatefulSet(content.sts.(template := desired.template));
      return None;
    }

    /** The kinds whose labels and annotations are replaced. */
    method MutateWhole(desired: Object)
      requires content.Kind() == desired.content.Kind() && ReplacesMeta(desired.content)
      modifies this
      ensures State() == old(State()).(annotations := desired.annotations, labels := desired.labels,
                                       content := NewContent(uid == 0, old(content), desired))
    {
      annotations := desired.annotations;
      labels := desired.labels;
      match desired.content {
        case Secret(s) => content := Secret(content.secret.(data := s.data));
        case ClusterRoleBinding(crb) => content := ClusterRoleBinding(content.crb.(subjects := crb.subjects));
        case RoleBinding(rb) => content := RoleBinding(content.rb.(subjects := rb.subjects));
        case ClusterRole(rules) => content := ClusterRole(rules);
        case Role(rules) => content := Role(rules);
        case Whole(_, spec) => content := content.(spec := spec);
      }
    }

    /** The type switch of MutateFuncFor. */
    method MutateByKind(desired: Object) returns (err: Option<MutateError>)
      requires content.Kind() == desired.content.Kind()
      requires uid == 0 ==> content == desired.content
      modifies this
      ensures err == Refusal(uid == 0, old(content), desired.content)
      ensures uid == old(uid) && owner == old(owner) && content.Kind() == old(content.Kind())
      ensures err.None? ==> content == NewContent(uid == 0, old(content), desired)
      ensures annotations == if KeepsAnnotations(desired.content) then old(annotations) else desired.annotations
      ensures labels == if KeepsLabels(desired.content) then old(labels) else desired.labels
    {
      hide Merge;
      match desired.content {
        case ConfigMap(cm) => MutateConfigMap(desired.annotations, desired.labels, cm);
        case Service(svc) => MutateService(svc);
        case Ingress(ing) => MutateIngress(desired.annotations, desired.labels, ing);
        case Deployment(dpl) => MutateDeployment(dpl);
        case StatefulSet(sts) => err := MutateStatefulSet(sts); return;
        case ServiceAccount(_) => labels := desired.labels;
        case Unsupported(_) => return Some(MissingMutate);
        case _ => MutateWhole(desired);
      }
      return None;
    }

    /** MutateFuncFor: a refused update may leave the copy half changed, but never its identity or kind. */
    method Mutate(desired: Object) returns (err: Option<MutateError>)
      requires content.Kind() == desired.content.Kind()
      requires uid == 0 ==> content == desired.content
      modifies this
      ensures err == Refusal(uid == 0, old(content), desired.content)
      ensures uid == old(uid) && content.Kind() == old(content.Kind())
      ensures err.None? ==> State() == Mutated(old(State()), desired)
    {
      annotations := Merge(annotations, desired.annotations);
      labels := Merge(labels, desired.labels);
      if desired.owner.Some? { owner := desired.owner; }
      err := MutateByKind(desired);
    }
  }

  // ---------- what an update means ----------

  predicate Carries(t: Table, wanted: Table) {
    forall k :: k in wanted && wanted[k] != "" ==> k in t && t[k] == wanted[k]
  }

  /** The object is what was asked for, in everything the operator ever writes to an existing object. */
  predicate Conforms(o: Object, d: Object) {
    && Carries(o.annotations, d.annotations) && Carries(o.labels, d.labels)
    && (d.owner.Some? ==> o.owner == d.owner)
    && o.content.Kind() == d.content.Kind()
    && match d.content
       case ConfigMap(_) => INJECT_CA_BUNDLE in d.annotations || o.content == d.content
       case Secret(secret) => o.content.secret.data == secret.data
       case Service(svc) => o.content.svc.ports == svc.ports && Carries(o.content.svc.selector, svc.selector)
       case ClusterRoleBinding(crb) => o.content.crb.subjects == crb.subjects
       case RoleBinding(rb) => o.content.rb.subjects == rb.subjects
       case Deployment(dpl) =>
         o.content.dpl.replicas == dpl.replicas && o.content.dpl.template == dpl.template
         && Carries(o.content.dpl.strategy, dpl.strategy)
       case Ingress(ing) => o.content.ing == ing.(className := o.content.ing.className)
       case ServiceAccount(_) => true
       case _ => o.content == d.content
  }

  lemma MergeTwice(dst: Table, src: Table)
    ensures Merge(Merge(dst, src), src) == Merge(dst, src)
    ensures Merge(src, src) == src
  {}

  /** An update that is accepted yields what was asked for, and asking again changes nothing and is accepted again. */
  lemma UpdateSettles(e: Object, d: Object)
    requires e.content.Kind() == d.content.Kind() && !Refused(e, d)
    ensures Conforms(Mutated(e, d), d)
    ensures !Refused(Mutated(e, d), d) && Mutated(Mutated(e, d), d) == Mutated(e, d)
  {
    MergeTwice(e.annotations, d.annotations);
    MergeTwice(e.labels, d.labels);
    if d.content.Service? { MergeTwice(e.content.svc.selector, d.content.svc.selector); }
    if d.content.Deployment? { MergeTwice(e.content.dpl.strategy, d.content.dpl.strategy); }
  }

  /** The destination has nothing that the source does not have, and nothing where the source is empty. */
  predicate Covers(src: Table, dst: Table) {
    dst.Keys <= src.Keys && forall k :: k in dst && src[k] == "" ==> dst[k] == ""
  }

  /** Merging only adds and overrides. */
  lemma MergeIsSource(dst: Table, src: Table)
    ensures Merge(dst, src) == src <==> Covers(src, dst)
  {
    if Merge(dst, src) == src {
      assert Merge(dst, src).Keys == dst.Keys + src.Keys;
      forall k | k in dst && src[k] == "" ensures dst[k] == "" {
        assert Merge(dst, src)[k] == dst[k];
      }
    }
  }

  /** The fields that an update never writes are as desired already. */
  predicate UnwrittenAgree(e: Content, d: Object)
    requires e.Kind() == d.content.Kind()
  {
    match d.content
    case ConfigMap(_) => INJECT_CA_BUNDLE in d.annotations ==> e == d.content
    case Secret(s) => e.secret.secretType == s.secretType
    case Service(svc) => e.svc.other == svc.other && Covers(svc.selector, e.svc.selector)
    case ServiceAccount(account) => e.account == account
    case ClusterRoleBinding(crb) => e.crb.roleRef == crb.roleRef
    case RoleBinding(rb) => e.rb.roleRef == rb.roleRef
    case Deployment(dpl) => e.dpl.selector == dpl.selector && Covers(dpl.strategy, e.dpl.strategy)
    case Ingress(ing) => e.ing.className == ing.className
    case _ => true
  }

  /** An accepted update of an existing object makes its content the desired one exactly when the fields it never writes
      agree; otherwise no further update will. */
  lemma TakesEffectExactly(e: Object, d: Object)
    requires e.content.Kind() == d.content.Kind() && e.uid != 0 && !Refused(e, d)
    ensures Mutated(e, d).content == d.content <==> UnwrittenAgree(e.content, d)
    ensures Mutated(Mutated(e, d), d).content == d.content <==> UnwrittenAgree(e.content, d)
  {
    if d.content.Service? { MergeIsSource(e.content.svc.selector, d.content.svc.selector); }
    if d.content.Deployment? { MergeIsSource(e.content.dpl.strategy, d.content.dpl.strategy); }
    UpdateSettles(e, d);
    hide Merge, Covers, Conforms;
  }

  /** The kinds on whose labels and annotations updates only add and override: nothing that is there is lost. For all
      other kinds an update leaves exactly the desired ones, except for the annotations of a service account. */
  lemma MetadataAfterUpdate(e: Object, d: Object)
    requires e.content.Kind() == d.content.Kind() && !d.content.Unsupported?
    ensures var r := Mutated(e, d);
            var merges := d.content.Service? || d.content.Deployment? || d.content.StatefulSet?;
            && (forall k :: k in r.labels <==> k in d.labels || (merges && k in e.labels))
            && (forall k :: k in d.labels && (d.labels[k] != "" || !merges) ==> r.labels[k] == d.labels[k])
            && (forall k :: merges && k in e.labels && (k !in d.labels || d.labels[k] == "") ==>
                  r.labels[k] == e.labels[k])
            && (forall k :: k in r.annotations
                  <==> k in d.annotations || ((merges || d.content.ServiceAccount?) && k in e.annotations))
            && (forall k :: k in d.annotations && (d.annotations[k] != "" || !(merges || d.content.ServiceAccount?)) ==>
                  r.annotations[k] == d.annotations[k])
            && (forall k :: (merges || d.content.ServiceAccount?) && k in e.annotations
                            && (k !in d.annotations || d.annotations[k] == "") ==>
                  r.annotations[k] == e.annotations[k])
            && r.uid == e.uid && (d.owner.Some? ==> r.owner == d.owner) && (d.owner.None? ==> r.owner == e.owner)
  {
    assert Merge(e.labels, d.labels).Keys == e.labels.Keys + d.labels.Keys;
    assert Merge(e.annotations, d.annotations).Keys == e.annotations.Keys + d.annotations.Keys;
  }

  /** A new object is created exactly as desired. */
  lemma CreatedAsDesired(d: Object)
    requires d.uid == 0
    ensures Mutated(d, d) == d && Conforms(d, d)
  {
    MergeTwice(d.annotations, d.annotations);
    MergeTwice(d.labels, d.labels);
    if d.content.Service? { MergeTwice(d.content.svc.selector, d.content.svc.selector); }
    if d.content.Deployment? { MergeTwice(d.content.dpl.strategy, d.content.dpl.strategy); }
  }

  /** No accepted update of an existing StatefulSet alters its selector or what the code compares of its claim
      templates; the templates as a whole stay the same exactly when the desired labels and type data agree too. */
  lemma ImmutableFieldsKept(e: Object, d: Object)
    requires e.content.StatefulSet? && d.content.StatefulSet? && e.uid != 0 && !Refused(e, d)
    ensures Mutated(e, d).content.sts.selector == e.content.sts.selector
    ensures SameClaims(Mutated(e, d).content.sts.claims, e.content.sts.claims)
    ensures Mutated(e, d).content.sts.claims == e.content.sts.claims
       <==> forall i :: 0 <= i < |d.content.sts.claims| ==>
              d.content.sts.claims[i].labels == e.content.sts.claims[i].labels
              && d.content.sts.claims[i].typeMeta == e.content.sts.claims[i].typeMeta
  {
    var a, b := d.content.sts.claims, e.content.sts.claims;
    if forall i :: 0 <= i < |a| ==> a[i].labels == b[i].labels && a[i].typeMeta == b[i].typeMeta {
      assert forall i :: 0 <= i < |a| ==> SameClaim(a[i], b[i]) && a[i] == b[i];
      assert a == b;
    }
  }

  /** A changed claim label goes into an update that the code takes for allowed. */
  lemma ClaimLabelIsUpdated()
    ensures exists e: Object, d: Object ::
              e.content.StatefulSet? && d.content.StatefulSet? && e.uid != 0 && !Refused(e, d)
              && Mutated(e, d).content.sts.claims != e.content.sts.claims
  {
    var claim := Claim("", "data", map[], map[], "10Gi");
    var before := StatefulSet(StatefulSetSpec(map[], "Parallel", "1", [claim], ""));
    var after := StatefulSet(StatefulSetSpec(map[], "Parallel", "1", [claim.(labels := map["team" := "a"])], ""));
    var e := Object(1, map[], map[], None, before);
    var d := Object(0, map[], map[], None, after);
    assert SameClaim(after.sts.claims[0], before.sts.claims[0]);
    assert "team" in Mutated(e, d).content.sts.claims[0].labels && "team" !in before.sts.claims[0].labels;
  }
}
