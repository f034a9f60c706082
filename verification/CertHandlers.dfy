/** The two handlers around the builder (internal/certrotation/handlers): the write loop that stores what was built,
    and the checker that decides whether a rotation is needed. */
module CertHandlers {
  import opened Wrappers
  import opened Strings
  import opened Certificates
  import opened Rotation
  import opened CertBuild

  /** One stack's certificate objects as stored in the cluster. */
  datatype Cluster = Cluster(signer: Option<SecretState>, bundle: Option<Pem>, targets: map<string, SecretState>)

  datatype ObjectRef = SignerRef | BundleRef | TargetRef(name: string)

  /** What stays fixed for a stack: its settings, the issuer prefix, and the hostnames of each target secret. */
  datatype Stack = Stack(rotation: RotationSettings, issuer: string, hosts: map<string, set<string>>)

  function Lookup(targets: map<string, SecretState>, name: string): Option<SecretState> {
    if name in targets then Some(targets[name]) else None
  }

  /** GetOptions followed by ApplyDefaultSettings. */
  function InputsFor(k: Stack, c: Cluster): Inputs {
    Inputs(k.rotation, k.issuer, c.signer, c.bundle,
           map name | name in k.hosts :: SelfSignedCertKey(Lookup(c.targets, name), k.hosts[name]))
  }

  ghost function BuildFor(k: Stack, c: Cluster, now: nat, draw: nat): Result<Built, BuildError> {
    BuildAll(InputsFor(k, c), now, draw)
  }

  function Refs(b: Built): set<ObjectRef> {
    {SignerRef, BundleRef} + set name | name in b.targets :: TargetRef(name)
  }

  /** The cluster after the objects in written, and no others, have been stored. */
  function Persist(c: Cluster, b: Built, written: set<ObjectRef>): Cluster {
    Cluster(
      if SignerRef in written then Some(b.signer) else c.signer,
      if BundleRef in written then Some(Certs(b.bundle)) else c.bundle,
      map name | name in c.targets.Keys + b.targets.Keys
                 && (name in c.targets || TargetRef(name) in written)
        :: if name in b.targets && TargetRef(name) in written then b.targets[name] else c.targets[name])
  }

  datatype CertObject = SignerObject(secret: SecretState) | BundleObject(certs: seq<Certificate>)
    | TargetObject(name: string, secret: SecretState)
  {
    function Ref(): ObjectRef {
      match this
      case SignerObject(_) => SignerRef
      case BundleObject(_) => BundleRef
      case TargetObject(name, _) => TargetRef(name)
    }
  }

  ghost predicate Injective(components: map<string, string>) {
    forall s, s' :: s in components && s' in components && components[s] == components[s'] ==> s == s'
  }

  ghost function HostsOf(components: map<string, string>, namespace: string): map<string, set<string>> {
    map name | name in components.Values ::
      var service :| service in components && components[service] == name;
      Hostnames(service, namespace)
  }

  datatype StackRead = Found | Gone | Unreadable

  /** What goes wrong during one call of the handler: reading the stack, reading objects, writing objects. */
  datatype Calls = Calls(stack: StackRead, unreadable: set<ObjectRef>, unwritable: set<ObjectRef>)

  datatype Outcome = NoStack | LookupFailed | BuildFailed(error: BuildError) | Wrote(built: Built, errCount: nat)

  /** Everything the lookup reads can be read. */
  predicate Readable(components: map<string, string>, unreadable: set<ObjectRef>) {
    SignerRef !in unreadable && BundleRef !in unreadable
    && forall name :: name in components.Values ==> TargetRef(name) !in unreadable
  }

  function FoundSecrets(c: Cluster, components: map<string, string>): map<string, SelfSignedCertKey> {
    map name | name in components.Values && name in c.targets :: SelfSignedCertKey(Some(c.targets[name]), {})
  }

  ghost function OutcomeOf(k: Stack, components: map<string, string>, c: Cluster, now: nat, draw: nat,
                           calls: Calls): Outcome {
    if calls.stack == Gone then NoStack
    else if calls.stack == Unreadable || !Readable(components, calls.unreadable) then LookupFailed
    else
      var r := BuildFor(k, c, now, draw);
      if r.Err? then BuildFailed(r.error) else Wrote(r.value, |Refs(r.value) * calls.unwritable|)
  }

  /** The API server as these handlers see it; the writes to the objects in failing do not go through. */
  class Client {
    var state: Cluster

    constructor (state: Cluster)
      ensures this.state == state
    {
      this.state := state;
    }

    /** CreateOrUpdate of one object: the mutate functions copy annotations and data over whatever is stored. */
    method CreateOrUpdate(obj: CertObject, failing: set<ObjectRef>) returns (ok: bool)
      modifies this
      ensures ok == (obj.Ref() !in failing)
      ensures state == if ok then Apply(old(state), obj) else old(state)
    {
      if obj.Ref() in failing { return false; }
      match obj {
        case SignerObject(s) => state := state.(signer := Some(s));
        case BundleObject(certs) => state := state.(bundle := Some(Certs(certs)));
        case TargetObject(name, s) => state := state.(targets := state.targets[name := s]);
      }
      return true;
    }

    /** The write loop: a failed write is counted and the loop goes on to the next object. */
    method WriteAll(b: Built, objects: seq<CertObject>, failing: set<ObjectRef>) returns (errCount: nat)
      requires Lists(objects, b)
      modifies this
      ensures state == Persist(old(state), b, Refs(b) - failing)
      ensures errCount == |Refs(b) * failing|
    {
      errCount := 0;
      PersistNothing(state, b);
      assert RefsUpTo(objects, 0) - failing == {} && RefsUpTo(objects, 0) * failing == {};
      for i := 0 to |objects|
        invariant state == Persist(old(state), b, RefsUpTo(objects, i) - failing)
        invariant errCount == |RefsUpTo(objects, i) * failing|
      {
        var ok := CreateOrUpdate(objects[i], failing);
        if !ok { errCount := errCount + 1; }
        PersistStep(old(state), b, objects, i, failing);
      }
    }

    /** GetOptions: what is not there is left out, while any other failure to read ends the lookup. */
    method GetOptions(components: map<string, string>, namespace: string, issuer: string, unreadable: set<ObjectRef>)
      returns (opts: Option<Options>)
      ensures opts.None? <==> !Readable(components, unreadable)
      ensures opts.Some? ==>
                var o := opts.value;
                && fresh(o) && o.namespace == namespace && o.issuer == issuer
                && o.signerSecret == state.signer && o.caBundle == state.bundle
                && o.certificates == FoundSecrets(state, components)
    {
      if SignerRef in unreadable || BundleRef in unreadable { return None; }
      var certificates: map<string, SelfSignedCertKey> := map[];
      var remaining := components.Keys;
      while remaining != {}
        invariant remaining <= components.Keys
        invariant forall service :: service in components && service !in remaining ==>
                    TargetRef(components[service]) !in unreadable
        invariant forall name :: name in certificates <==>
                    name in state.targets
                    && exists service :: service in components.Keys - remaining && components[service] == name
        invariant forall name :: name in certificates ==>
                    certificates[name] == SelfSignedCertKey(Some(state.targets[name]), {})
        decreases |remaining|
      {
        var service :| service in remaining;
        remaining := remaining - {service};
        var name := components[service];
        if TargetRef(name) in unreadable { return None; }
        if name in state.targets {
          certificates := certificates[name := SelfSignedCertKey(Some(state.targets[name]), {})];
        }
      }
      assert certificates == FoundSecrets(state, components);
      var o := new Options(namespace, issuer, state.signer, state.bundle, certificates);
      return Some(o);
    }

    /** CreateOrRotateCertificates. */
    method CreateOrRotateCertificates(settings: RotationSettings, components: map<string, string>, namespace: string,
                                      issuer: string, now: nat, draw: nat, calls: Calls)
      returns (r: Outcome)
      requires Injective(components)
      modifies this
      ensures r == OutcomeOf(Stack(settings, issuer, HostsOf(components, namespace)), components, old(state), now, draw,
                             calls)
      ensures state == if r.Wrote? then Persist(old(state), r.built, Refs(r.built) - calls.unwritable) else old(state)
    {
      if calls.stack != Found { return if calls.stack == Gone then NoStack else LookupFailed; }
      var found := GetOptions(components, namespace, issuer, calls.unreadable);
      if found.None? { return LookupFailed; }
      var opts := found.value;
      opts.ApplyDefaultSettings(settings, components);
      ghost var k := Stack(settings, issuer, HostsOf(components, namespace));
      DefaultsAreInputs(k, state, components, namespace, opts.certificates);
      hide Configured, HostsOf, BuildAll, Persist, Refs, FoundSecrets, StoredSecret, Lists, Readable;
      var built := opts.Build(now, draw);
      if built.Err? { return BuildFailed(built.error); }
      var objects := ObjectsOf(built.value);
      var errCount := WriteAll(built.value, objects, calls.unwritable);
      return Wrote(built.value, errCount);
    }
  }

  /** A call writes exactly if the stack and everything it looks up can be read and building succeeds. */
  lemma WritesExactly(k: Stack, components: map<string, string>, c: Cluster, now: nat, draw: nat, calls: Calls)
    ensures OutcomeOf(k, components, c, now, draw, calls).Wrote?
       <==> && calls.stack == Found && SignerRef !in calls.unreadable && BundleRef !in calls.unreadable
            && (forall service :: service in components ==> TargetRef(components[service]) !in calls.unreadable)
            && BuildFor(k, c, now, draw).Ok?
  {
    hide BuildFor;
    forall service | service in components ensures components[service] in components.Values {}
  }

  lemma DefaultsAreInputs(k: Stack, c: Cluster, components: map<string, string>, namespace: string,
                          certificates: map<string, SelfSignedCertKey>)
    requires Injective(components) && k.hosts == HostsOf(components, namespace)
    requires certificates.Keys == FoundSecrets(c, components).Keys + components.Values
    requires forall name :: name in certificates ==>
               certificates[name].secret == StoredSecret(FoundSecrets(c, components), name)
    requires forall name :: name in components.Values ==> Configured(components, namespace, name, certificates[name])
    ensures certificates == InputsFor(k, c).certificates
  {
    assert certificates.Keys == components.Values;
    forall name | name in certificates
      ensures certificates[name] == SelfSignedCertKey(Lookup(c.targets, name), k.hosts[name])
    {
      assert Configured(components, namespace, name, certificates[name]);
    }
  }

  ghost function RefsUpTo(objects: seq<CertObject>, n: nat): set<ObjectRef>
    requires n <= |objects|
  {
    set j | 0 <= j < n :: objects[j].Ref()
  }

  /** The list holds every object that was built, once. */
  ghost predicate Lists(objects: seq<CertObject>, b: Built) {
    && (forall i, j :: 0 <= i < j < |objects| ==> objects[i].Ref() != objects[j].Ref())
    && RefsUpTo(objects, |objects|) == Refs(b)
    && (forall i :: 0 <= i < |objects| ==> IsPartOf(objects[i], b))
  }

  predicate IsPartOf(obj: CertObject, b: Built) {
    match obj
    case SignerObject(s) => s == b.signer
    case BundleObject(certs) => certs == b.bundle
    case TargetObject(name, s) => name in b.targets && s == b.targets[name]
  }

  lemma PersistNothing(c: Cluster, b: Built)
    ensures Persist(c, b, {}) == c
  {
    assert Persist(c, b, {}).targets == c.targets;
  }

  function Apply(c: Cluster, obj: CertObject): Cluster {
    match obj
    case SignerObject(s) => c.(signer := Some(s))
    case BundleObject(certs) => c.(bundle := Some(Certs(certs)))
    case TargetObject(name, s) => c.(targets := c.targets[name := s])
  }

  lemma PersistOneMore(c: Cluster, b: Built, written: set<ObjectRef>, obj: CertObject)
    requires IsPartOf(obj, b)
    ensures Persist(c, b, written + {obj.Ref()}) == Apply(Persist(c, b, written), obj)
  {
    var p, q := Persist(c, b, written), Persist(c, b, written + {obj.Ref()});
    if obj.TargetObject? {
      assert q.targets == p.targets[obj.name := obj.secret];
    } else {
      assert q.targets == p.targets;
    }
  }

  lemma RefsGrow(objects: seq<CertObject>, i: nat)
    requires i < |objects| && forall j, k :: 0 <= j < k < |objects| ==> objects[j].Ref() != objects[k].Ref()
    ensures RefsUpTo(objects, i + 1) == RefsUpTo(objects, i) + {objects[i].Ref()}
    ensures objects[i].Ref() !in RefsUpTo(objects, i)
  {}

  lemma OneMore<T>(done: set<T>, x: T, failing: set<T>)
    requires x !in done
    ensures x in failing ==>
              (done + {x}) - failing == done - failing && |(done + {x}) * failing| == |done * failing| + 1
    ensures x !in failing ==>
              (done + {x}) - failing == (done - failing) + {x} && (done + {x}) * failing == done * failing
  {
    if x in failing {
      assert (done + {x}) * failing == (done * failing) + {x};
    } else {
      assert (done + {x}) * failing == done * failing;
    }
  }

  lemma PersistStep(c: Cluster, b: Built, objects: seq<CertObject>, i: nat, failing: set<ObjectRef>)
    requires Lists(objects, b) && i < |objects|
    ensures var before, after := RefsUpTo(objects, i), RefsUpTo(objects, i + 1);
            if objects[i].Ref() in failing then
              after - failing == before - failing && |after * failing| == |before * failing| + 1
            else
              Persist(c, b, after - failing) == Apply(Persist(c, b, before - failing), objects[i])
              && after * failing == before * failing
  {
    RefsGrow(objects, i);
    OneMore(RefsUpTo(objects, i), objects[i].Ref(), failing);
    if objects[i].Ref() !in failing {
      PersistOneMore(c, b, RefsUpTo(objects, i) - failing, objects[i]);
    }
  }

  /** Signer, bundle, and the targets in the given order. */
  function ObjectsFor(b: Built, names: seq<string>): seq<CertObject>
    requires Elements(names) <= b.targets.Keys
  {
    [SignerObject(b.signer), BundleObject(b.bundle)]
    + seq(|names|, i requires 0 <= i < |names| =>
        (assert names[i] in Elements(names); TargetObject(names[i], b.targets[names[i]])))
  }

  lemma ObjectAt(b: Built, names: seq<string>, i: nat)
    requires Elements(names) <= b.targets.Keys && i < |names|
    ensures names[i] in b.targets && ObjectsFor(b, names)[i + 2] == TargetObject(names[i], b.targets[names[i]])
  {
    assert names[i] in Elements(names);
  }

  lemma ObjectsCoverRefs(b: Built, names: seq<string>, ref: ObjectRef)
    requires Elements(names) == b.targets.Keys && ref in Refs(b)
    ensures exists i :: 0 <= i < |ObjectsFor(b, names)| && ObjectsFor(b, names)[i].Ref() == ref
  {
    var objects := ObjectsFor(b, names);
    match ref
    case SignerRef => assert objects[0].Ref() == ref;
    case BundleRef => assert objects[1].Ref() == ref;
    case TargetRef(name) =>
      assert name in Elements(names);
      var i :| 0 <= i < |names| && names[i] == name;
      ObjectAt(b, names, i);
      assert objects[i + 2].Ref() == ref;
  }

  lemma ObjectsForLists(b: Built, names: seq<string>)
    requires Distinct(names) && Elements(names) == b.targets.Keys
    ensures Lists(ObjectsFor(b, names), b)
  {
    var objects := ObjectsFor(b, names);
    forall i | 0 <= i < |objects|
      ensures IsPartOf(objects[i], b) && objects[i].Ref() in Refs(b)
      ensures i >= 2 ==> objects[i].Ref() == TargetRef(names[i - 2])
    {
      if i >= 2 { ObjectAt(b, names, i - 2); }
    }
    assert objects[0].Ref() == SignerRef && objects[1].Ref() == BundleRef;
    hide ObjectsFor, Refs, Elements, IsPartOf;
    forall ref | ref in Refs(b)
      ensures ref in RefsUpTo(objects, |objects|)
    {
      ObjectsCoverRefs(b, names, ref);
    }
  }

  /** The objects in the order in which they are written: signer, bundle, then the targets in no particular order. */
  method ObjectsOf(b: Built) returns (objects: seq<CertObject>)
    ensures Lists(objects, b)
  {
    objects := [SignerObject(b.signer), BundleObject(b.bundle)];
    ghost var names: seq<string> := [];
    var remaining := b.targets.Keys;
    while remaining != {}
      invariant remaining <= b.targets.Keys
      invariant Distinct(names) && Elements(names) == b.targets.Keys - remaining
      invariant objects == ObjectsFor(b, names)
      decreases |remaining|
    {
      var name :| name in remaining;
      remaining := remaining - {name};
      assert name !in Elements(names);
      assert Elements(names + [name]) == Elements(names) + {name};
      names := names + [name];
      objects := objects + [TargetObject(name, b.targets[name])];
    }
    ObjectsForLists(b, names);
  }

  // ---------- the checker ----------

  datatype CheckResult =
    | Quiet
    | SignerExpired(reason: Reason)
    | TargetsExpired(reasons: map<string, Reason>)
    | CheckFailed(error: BuildError)
  {
    predicate Reports() { SignerExpired? || TargetsExpired? }
  }

  predicate AllPresent(o: Inputs) {
    o.signer.Some? && o.bundle.Some? && forall name :: name in o.certificates ==> o.certificates[name].secret.Some?
  }

  function CheckReason(o: Inputs, name: string, now: int): Option<Reason>
    requires AllPresent(o) && o.signer.value.tls.Some? && name in o.certificates
  {
    var k := o.certificates[name];
    TargetReason(k.secret.value.annotations, o.signer.value.tls.value, StoredCerts(o.bundle), k.hostnames,
                 o.rotation.targetRefresh, now)
  }

  /** SigningCAExpired, then CertificatesExpired: the targets are compared with the bundle as it is stored. */
  function Check(o: Inputs, now: int): CheckResult {
    if o.signer.Some? && SignerDue(o.rotation, o.signer, now)
    then SignerExpired(NeedNewCertificate(o.signer.value.annotations, now, o.rotation.caRefresh, None).value)
    else if !AllPresent(o) then Quiet
    else if o.signer.value.tls.None? then CheckFailed(NoSigningCA)
    else if StoredCerts(o.bundle) == [] then CheckFailed(BadBundle)
    else
      var reasons := map name | name in o.certificates && CheckReason(o, name, now).Some? ::
          CheckReason(o, name, now).value;
      if reasons == map[] then Quiet else TargetsExpired(reasons)
  }

  /** CheckCertExpiry. */
  method CheckCertExpiry(o: Inputs, now: int) returns (r: CheckResult)
    ensures r == Check(o, now)
  {
    if o.signer.Some? {
      var reason := NeedNewCertificate(o.signer.value.annotations, now, o.rotation.caRefresh, None);
      if reason.Some? { return SignerExpired(reason.value); }
    }
    if o.signer.None? || o.bundle.None? { return Quiet; }
    var names := o.certificates.Keys;
    while names != {}
      invariant names <= o.certificates.Keys
      invariant forall name :: name in o.certificates && name !in names ==> o.certificates[name].secret.Some?
      decreases |names|
    {
      var name :| name in names;
      names := names - {name};
      if o.certificates[name].secret.None? { return Quiet; }
    }
    if o.signer.value.tls.None? { return CheckFailed(NoSigningCA); }
    var caCerts := StoredCerts(o.bundle);
    if caCerts == [] { return CheckFailed(BadBundle); }
    var reasons: map<string, Reason> := map[];
    names := o.certificates.Keys;
    while names != {}
      invariant names <= o.certificates.Keys && reasons.Keys <= o.certificates.Keys - names
      invariant forall name :: name in o.certificates && name !in names ==>
                  (name in reasons <==> CheckReason(o, name, now).Some?)
                  && (name in reasons ==> reasons[name] == CheckReason(o, name, now).value)
      decreases |names|
    {
      var name :| name in names;
      names := names - {name};
      var cert := o.certificates[name];
      var reason := TargetNeedsNewCertificate(cert.secret.value.annotations, o.signer.value.tls.value, caCerts,
                                              cert.hostnames, o.rotation.targetRefresh, now);
      if reason.Some? { reasons := reasons[name := reason.value]; }
    }
    assert reasons == map name | name in o.certificates && CheckReason(o, name, now).Some? ::
        CheckReason(o, name, now).value;
    return if reasons == map[] then Quiet else TargetsExpired(reasons);
  }

  // ---------- the checker agrees with the builder ----------

  /** Every target that has not expired was issued by a CA of the stored bundle that has not expired either. */
  ghost predicate TrustedByName(o: Inputs, now: int)
    requires AllPresent(o)
  {
    forall name :: name in o.certificates ==>
      var a := o.certificates[name].secret.value.annotations;
      a.notAfter.At? && now <= a.notAfter.time ==>
        exists ca :: ca in StoredCerts(o.bundle) && ca.subject == a.issuer && ca.Unexpired(now)
  }

  /** For a signer that is kept, rebuilding the bundle changes no verdict on a trusted target. */
  lemma RebuiltBundleSameReason(o: Inputs, name: string, now: int)
    requires AllPresent(o) && o.signer.value.tls.Some? && name in o.certificates && TrustedByName(o, now)
    ensures TargetDue(o.rotation, o.certificates[name], o.signer.value.tls.value,
                      Rebuilt(o.signer.value.tls.value, StoredCerts(o.bundle), now), now)
       <==> CheckReason(o, name, now).Some?
  {
    var ca, stored := o.signer.value.tls.value, StoredCerts(o.bundle);
    var a := o.certificates[name].secret.value.annotations;
    var rebuilt := Rebuilt(ca, stored, now);
    if NeedNewCertificate(a, now, o.rotation.targetRefresh, Some(ca)).None? {
      var issuer :| issuer in stored && issuer.subject == a.issuer && issuer.Unexpired(now);
      assert issuer in [ca] + stored;
      assert issuer in rebuilt;
      assert Names(rebuilt, a.issuer) && Names(stored, a.issuer);
    }
  }

  /** No stored key pair came from this draw, so a key pair made from it can be told apart. */
  predicate FreshDraw(o: Inputs, draw: nat) {
    (o.signer.Some? && o.signer.value.tls.Some? ==> o.signer.value.tls.value.key.draw != draw)
    && forall name :: name in o.certificates ==>
         var s := o.certificates[name].secret;
         s.Some? && s.value.tls.Some? ==> s.value.tls.value.key.draw != draw
  }

  /** Some key pair that was built is not the one that is stored. */
  predicate Replaces(o: Inputs, b: Built)
    requires AllPresent(o) && b.targets.Keys == o.certificates.Keys
  {
    b.signer.tls != o.signer.value.tls
    || exists name :: name in o.certificates && b.targets[name].tls != o.certificates[name].secret.value.tls
  }

  /** A kept signer: the verdict on each target decides whether its key pair is replaced. */
  lemma KeptSignerAgrees(o: Inputs, now: nat, draw: nat, b: Built)
    requires AllPresent(o) && TrustedByName(o, now) && FreshDraw(o, draw) && BuildAll(o, now, draw) == Ok(b)
    requires !SignerDue(o.rotation, o.signer, now)
    ensures o.signer.value.tls.Some? && b.signer.tls == o.signer.value.tls && b.targets.Keys == o.certificates.Keys
    ensures forall name :: name in o.certificates ==>
              (CheckReason(o, name, now).Some? <==> b.targets[name].tls != o.certificates[name].secret.value.tls)
  {
    forall name | name in o.certificates
      ensures CheckReason(o, name, now).Some? <==> b.targets[name].tls != o.certificates[name].secret.value.tls
    {
      RebuiltBundleSameReason(o, name, now);
      assert b.targets[name]
          == RotateTarget(o.rotation, name, o.certificates[name], o.signer.value.tls.value, b.bundle, now, draw);
    }
  }

  lemma ReportsSomeReason(o: Inputs, now: int)
    requires AllPresent(o) && o.signer.value.tls.Some? && !SignerDue(o.rotation, o.signer, now)
    ensures Check(o, now).Reports()
       <==> StoredCerts(o.bundle) != [] && exists name :: name in o.certificates && CheckReason(o, name, now).Some?
  {
    var reasons := map name | name in o.certificates && CheckReason(o, name, now).Some? ::
        CheckReason(o, name, now).value;
    assert forall name :: name in reasons <==> name in o.certificates && CheckReason(o, name, now).Some?;
  }

  /** With nothing in the stored bundle every target is due: a trusted one would need a CA there. */
  lemma EmptyBundleMeansDue(o: Inputs, now: int)
    requires AllPresent(o) && o.signer.value.tls.Some? && TrustedByName(o, now) && StoredCerts(o.bundle) == []
    ensures forall name :: name in o.certificates ==> CheckReason(o, name, now).Some?
  {}

  /** CheckCertExpiry agrees with BuildAll at the same instant, that is, reports an expiry exactly when some key pair
      would be replaced, exactly unless the signer is kept, there are targets, and the stored bundle is empty. */
  lemma CheckerAgreesExactly(o: Inputs, now: nat, draw: nat)
    requires AllPresent(o) && TrustedByName(o, now) && FreshDraw(o, draw) && BuildAll(o, now, draw).Ok?
    ensures (Check(o, now).Reports() <==> Replaces(o, BuildAll(o, now, draw).value))
       <==> SignerDue(o.rotation, o.signer, now) || StoredCerts(o.bundle) != [] || o.certificates == map[]
  {
    var b := BuildAll(o, now, draw).value;
    if SignerDue(o.rotation, o.signer, now) {
      assert b.signer.tls.value.key.draw == draw;
    } else {
      KeptSignerAgrees(o, now, draw, b);
      ReportsSomeReason(o, now);
      if StoredCerts(o.bundle) == [] { EmptyBundleMeansDue(o, now); }
      hide BuildAll, Check, CheckReason, TrustedByName;
      assert o.certificates != map[] ==> exists name :: name in o.certificates;
    }
  }

  /** In particular when the stored bundle is not empty. */
  lemma CheckerAgreesWithBuilder(o: Inputs, now: nat, draw: nat)
    requires AllPresent(o) && StoredCerts(o.bundle) != [] && TrustedByName(o, now) && FreshDraw(o, draw)
    requires BuildAll(o, now, draw).Ok?
    ensures Check(o, now).Reports() <==> Replaces(o, BuildAll(o, now, draw).value)
  {
    hide Check, BuildAll;
    CheckerAgreesExactly(o, now, draw);
  }

  /** The checker's error about the bundle, instead of an answer: exactly for an empty or unparsable stored bundle, when
      everything exists and the signer is kept. */
  lemma EmptyBundleIsAnError(o: Inputs, now: int)
    ensures Check(o, now) == CheckFailed(BadBundle)
       <==> && AllPresent(o) && !SignerDue(o.rotation, o.signer, now)
            && o.signer.value.tls.Some? && StoredCerts(o.bundle) == []
  {}

  /** When the checker reports targets, it names exactly those whose key pair would be replaced. */
  lemma ReportsTheReplaced(o: Inputs, now: nat, draw: nat, name: string)
    requires AllPresent(o) && StoredCerts(o.bundle) != [] && TrustedByName(o, now) && FreshDraw(o, draw)
    requires BuildAll(o, now, draw).Ok? && !SignerDue(o.rotation, o.signer, now) && name in o.certificates
    ensures name in BuildAll(o, now, draw).value.targets
    ensures Check(o, now).TargetsExpired? && name in Check(o, now).reasons
       <==> BuildAll(o, now, draw).value.targets[name].tls != o.certificates[name].secret.value.tls
  {
    KeptSignerAgrees(o, now, draw, BuildAll(o, now, draw).value);
    hide BuildAll, CheckReason, TrustedByName, FreshDraw;
    ReportedNames(o, now, name);
  }

  lemma ReportedNames(o: Inputs, now: int, name: string)
    requires AllPresent(o) && StoredCerts(o.bundle) != [] && o.signer.value.tls.Some?
    requires !SignerDue(o.rotation, o.signer, now) && name in o.certificates
    ensures Check(o, now).TargetsExpired? && name in Check(o, now).reasons <==> CheckReason(o, name, now).Some?
  {
    hide CheckReason;
    var reasons := map n | n in o.certificates && CheckReason(o, n, now).Some? :: CheckReason(o, n, now).value;
    assert name in reasons <==> CheckReason(o, name, now).Some?;
  }

  /** While an object is missing, only the signer is reported. */
  lemma QuietWhileMissing(o: Inputs, now: int)
    requires !AllPresent(o) && (o.signer.Some? ==> !SignerDue(o.rotation, o.signer, now))
    ensures Check(o, now) == Quiet
  {}
}
