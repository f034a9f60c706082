/** Building the signing CA, the CA bundle and the target certificates of one stack
    (internal/certrotation: build.go, signer.go, cabundle.go, target.go). */
module CertBuild {
  import opened Wrappers
  import opened Strings
  import opened Certificates
  import opened Rotation

  /** The parts of a TLS secret that rotation reads and writes. */
  datatype SecretState = SecretState(annotations: Annotations, tls: Option<Certificate>)

  /** The bundle file of the config map: text that does not parse, or a list of certificates (none when empty). */
  datatype Pem = Unparsable | Certs(certs: seq<Certificate>)

  datatype RotationSettings = RotationSettings(caValidity: int, caRefresh: int, targetValidity: int, targetRefresh: int)

  /** A target secret, if it exists, and the hostnames its certificate must carry. */
  datatype SelfSignedCertKey = SelfSignedCertKey(secret: Option<SecretState>, hostnames: set<string>)

  datatype BuildError = MissingIssuer | MissingHostnames | NoSigningCA | BadBundle

  /** The argument of BuildAll. */
  datatype Inputs = Inputs(
    rotation: RotationSettings,
    issuer: string,
    signer: Option<SecretState>,
    bundle: Option<Pem>,
    certificates: map<string, SelfSignedCertKey>)

  /** The objects BuildAll returns. */
  datatype Built = Built(signer: SecretState, bundle: seq<Certificate>, targets: map<string, SecretState>)

  // ---------- specification ----------

  function Current(stored: Option<SecretState>): SecretState {
    if stored.Some? then stored.value else SecretState(NoAnnotations, None)
  }

  predicate SignerDue(r: RotationSettings, stored: Option<SecretState>, now: int) {
    NeedNewCertificate(Current(stored).annotations, now, r.caRefresh, None).Some?
  }

  function IssueSigner(r: RotationSettings, issuer: string, stored: Option<SecretState>, now: nat,
                       draw: nat): SecretState {
    var ca := MakeSelfSignedCA(SignerName(issuer, now), r.caValidity, now, draw);
    SecretState(SignerAnnotations(Current(stored).annotations, ca), Some(ca))
  }

  function RotateSigner(r: RotationSettings, issuer: string, stored: Option<SecretState>, now: nat, draw: nat)
    : Result<SecretState, BuildError>
  {
    if SignerDue(r, stored, now) then
      if issuer == "" then Err(MissingIssuer) else Ok(IssueSigner(r, issuer, stored, now, draw))
    else if Current(stored).tls.None? then Err(NoSigningCA)
    else Ok(Current(stored))
  }

  /** Each certificate once, in order of first occurrence. */
  function Dedupe(certs: seq<Certificate>): (r: seq<Certificate>)
    ensures forall c :: c in r <==> c in certs
    ensures forall i, j :: 0 <= i < j < |r| ==> r[i] != r[j]
  {
    if certs == [] then []
    else
      var front := Dedupe(certs[..|certs| - 1]);
      var last := certs[|certs| - 1];
      assert certs == certs[..|certs| - 1] + [last];
      if last in front then front else front + [last]
  }

  /** The certificates trusted from now on: the signer and every stored CA that has not expired, each once. */
  function Rebuilt(signer: Certificate, stored: seq<Certificate>, now: int): seq<Certificate> {
    Dedupe(FilterExpired([signer] + stored, now))
  }

  function StoredCerts(bundle: Option<Pem>): seq<Certificate> {
    if bundle.Some? && bundle.value.Certs? then bundle.value.certs else []
  }

  function RebuildBundle(signer: Certificate, bundle: Option<Pem>, now: int): Result<seq<Certificate>, BuildError> {
    if bundle == Some(Unparsable) then Err(BadBundle) else Ok(Rebuilt(signer, StoredCerts(bundle), now))
  }

  predicate TargetDue(r: RotationSettings, k: SelfSignedCertKey, ca: Certificate, bundle: seq<Certificate>, now: int) {
    TargetReason(Current(k.secret).annotations, ca, bundle, k.hostnames, r.targetRefresh, now).Some?
  }

  /** A target is never given a longer life than what is left of its signer's. */
  function ClippedValidity(validity: int, ca: Certificate, now: int): int {
    if ca.notAfter - now < validity then ca.notAfter - now else validity
  }

  ghost function IssueTarget(r: RotationSettings, name: string, k: SelfSignedCertKey, ca: Certificate, now: nat,
                             draw: nat)
    : SecretState
  {
    var cert := MakeServerCert(ca, k.hostnames, ClippedValidity(r.targetValidity, ca, now), now, TargetKey(draw, name));
    SecretState(TargetAnnotations(cert), Some(cert))
  }

  ghost function RotateTarget(r: RotationSettings, name: string, k: SelfSignedCertKey, ca: Certificate,
                              bundle: seq<Certificate>, now: nat, draw: nat): SecretState
  {
    if TargetDue(r, k, ca, bundle, now) then IssueTarget(r, name, k, ca, now, draw) else Current(k.secret)
  }

  /** A certificate cannot be made for no hostname at all. */
  predicate Buildable(r: RotationSettings, k: SelfSignedCertKey, ca: Certificate, bundle: seq<Certificate>, now: int) {
    TargetDue(r, k, ca, bundle, now) ==> k.hostnames != {}
  }

  ghost function RotateTargets(r: RotationSettings, certificates: map<string, SelfSignedCertKey>, ca: Certificate,
                               bundle: seq<Certificate>, now: nat, draw: nat)
    : Result<map<string, SecretState>, BuildError>
  {
    if forall name :: name in certificates ==> Buildable(r, certificates[name], ca, bundle, now)
    then Ok(map name | name in certificates :: RotateTarget(r, name, certificates[name], ca, bundle, now, draw))
    else Err(MissingHostnames)
  }

  ghost function BuildAll(o: Inputs, now: nat, draw: nat): Result<Built, BuildError> {
    var signer := RotateSigner(o.rotation, o.issuer, o.signer, now, draw);
    if signer.Err? then Err(signer.error)
    else
      var ca := signer.value.tls.value;
      var bundle := RebuildBundle(ca, o.bundle, now);
      if bundle.Err? then Err(bundle.error)
      else
        var targets := RotateTargets(o.rotation, o.certificates, ca, bundle.value, now, draw);
        if targets.Err? then Err(targets.error) else Ok(Built(signer.value, bundle.value, targets.value))
  }

  // ---------- the code, step by step ----------

  /** A TLS secret under construction. */
  class Secret {
    const name: string
    var annotations: Annotations
    var tls: Option<Certificate>

    ghost function State(): SecretState
      reads this
    {
      SecretState(annotations, tls)
    }

    /** newSigningCASecret and newTargetCertificateSecret: a fresh object filled from the stored one, if any. */
    constructor (name: string, stored: Option<SecretState>)
      ensures this.name == name && State() == Current(stored)
    {
      this.name := name;
      annotations := if stored.Some? then stored.value.annotations else NoAnnotations;
      tls := if stored.Some? then stored.value.tls else None;
    }

    /** setSigningCertKeyPairSecret. */
    method SetSigningCertKeyPair(validity: int, issuer: string, now: nat, draw: nat) returns (err: Option<BuildError>)
      modifies this
      ensures err == if issuer == "" then Some(MissingIssuer) else None
      ensures err.Some? ==> State() == old(State())
      ensures err.None? ==>
                tls == Some(MakeSelfSignedCA(SignerName(issuer, now), validity, now, draw))
                && annotations == SignerAnnotations(old(annotations), tls.value)
    {
      if issuer == "" { return Some(MissingIssuer); }
      var ca := MakeSelfSignedCA(SignerName(issuer, now), validity, now, draw);
      tls := Some(ca);
      annotations := SignerAnnotations(annotations, ca);
      return None;
    }

    /** certificateRotation.SetAnnotations: collects the names into a set, lists it sorted and joins it. */
    method SetTargetAnnotations(cert: Certificate)
      modifies this`annotations
      ensures annotations == TargetAnnotations(cert)
    {
      var listed: seq<string> := [];
      var remaining := cert.hostnames;
      while remaining != {}
        invariant remaining <= cert.hostnames
        invariant Distinct(listed) && Elements(listed) == cert.hostnames - remaining
        decreases |remaining|
      {
        var h :| h in remaining;
        assert h !in Elements(listed);
        assert Elements(listed + [h]) == Elements(listed) + {h};
        listed := listed + [h];
        remaining := remaining - {h};
      }
      SortIsSortedList(listed, cert.hostnames);
      annotations := Annotations(At(cert.notAfter), At(cert.notBefore), cert.issuer, Join(Sort(listed), ','));
    }

    /** setTargetCertKeyPairSecret. */
    method SetTargetCertKeyPair(validity: int, ca: Certificate, hostnames: set<string>, now: nat, draw: nat)
      returns (err: Option<BuildError>)
      modifies this
      ensures err == if hostnames == {} then Some(MissingHostnames) else None
      ensures err.Some? ==> State() == old(State())
      ensures err.None? ==>
                tls == Some(MakeServerCert(ca, hostnames, ClippedValidity(validity, ca, now), now,
                                           TargetKey(draw, name)))
                && annotations == TargetAnnotations(tls.value)
      ensures err.None? ==>
                tls.value.notBefore == now
                && tls.value.notAfter == if now + validity <= ca.notAfter then now + validity else ca.notAfter
    {
      var targetValidity := validity;
      var remainingSignerValidity := ca.notAfter - now;
      if remainingSignerValidity < validity { targetValidity := remainingSignerValidity; }
      if hostnames == {} { return Some(MissingHostnames); }
      var cert := MakeServerCert(ca, hostnames, targetValidity, now, TargetKey(draw, name));
      tls := Some(cert);
      SetTargetAnnotations(cert);
      return None;
    }
  }

  /** manageCABundleConfigMap: prepend the signer, filter, then drop duplicates with two nested loops. */
  method ManageCABundle(stored: Option<Pem>, signer: Certificate, now: int)
    returns (r: Result<seq<Certificate>, BuildError>)
    ensures r == RebuildBundle(signer, stored, now)
  {
    hide FilterExpired;
    var certificates: seq<Certificate> := [];
    if stored.Some? {
      match stored.value
      case Unparsable => return Err(BadBundle);
      case Certs(certs) => certificates := certs;
    }
    certificates := FilterExpired([signer] + certificates, now);
    var final: seq<Certificate> := [];
    for i := 0 to |certificates|
      invariant final == Dedupe(certificates[..i])
    {
      assert certificates[..i + 1][..|certificates[..i + 1]| - 1] == certificates[..i];
      var duplicate := false;
      for j := 0 to |final|
        invariant !duplicate && forall k :: 0 <= k < j ==> final[k] != certificates[i]
      {
        if certificates[i] == final[j] {
          duplicate := true;
          break;
        }
      }
      if !duplicate { final := final + [certificates[i]]; }
    }
    assert certificates[..|certificates|] == certificates;
    return Ok(final);
  }

  /** The mutable options that BuildAll threads through its three stages. */
  class Options {
    var rotation: RotationSettings
    const namespace: string
    var issuer: string
    var signerSecret: Option<SecretState>
    var rawCA: Option<Certificate>
    var caBundle: Option<Pem>
    var rawCACerts: seq<Certificate>
    var certificates: map<string, SelfSignedCertKey>

    constructor (namespace: string, issuer: string, signer: Option<SecretState>, bundle: Option<Pem>,
                 certificates: map<string, SelfSignedCertKey>)
      ensures this.namespace == namespace && this.issuer == issuer && this.certificates == certificates
      ensures signerSecret == signer && caBundle == bundle
    {
      rotation := RotationSettings(0, 0, 0, 0);
      this.namespace := namespace;
      this.issuer := issuer;
      signerSecret, rawCA := signer, None;
      caBundle, rawCACerts := bundle, [];
      this.certificates := certificates;
    }

    ghost function Value(): Inputs
      reads this
    {
      Inputs(rotation, issuer, signerSecret, caBundle, certificates)
    }

    /** buildSigningCASecret. */
    method BuildSigningCASecret(now: nat, draw: nat) returns (r: Result<SecretState, BuildError>)
      modifies this`rawCA
      ensures r == RotateSigner(rotation, issuer, signerSecret, now, draw)
      ensures r.Ok? ==> rawCA.Some? && rawCA == r.value.tls
    {
      var secret := new Secret("signing-ca", signerSecret);
      var reason := NeedNewCertificate(secret.annotations, now, rotation.caRefresh, None);
      if reason.Some? {
        var err := secret.SetSigningCertKeyPair(rotation.caValidity, issuer, now, draw);
        if err.Some? { return Err(err.value); }
      }
      if secret.tls.None? { return Err(NoSigningCA); }
      rawCA := secret.tls;
      return Ok(SecretState(secret.annotations, secret.tls));
    }

    /** buildCABundle. */
    method BuildCABundle(now: nat) returns (r: Result<seq<Certificate>, BuildError>)
      requires rawCA.Some?
      modifies this`rawCACerts
      ensures r == RebuildBundle(rawCA.value, caBundle, now)
      ensures r.Ok? ==> rawCACerts == r.value
    {
      r := ManageCABundle(caBundle, rawCA.value, now);
      if r.Ok? { rawCACerts := r.value; }
    }

    /** buildTargetCertKeyPairSecrets: the secrets are visited in no particular order. */
    method BuildTargetCertKeyPairSecrets(now: nat, draw: nat) returns (r: Result<map<string, SecretState>, BuildError>)
      requires rawCA.Some?
      ensures r == RotateTargets(rotation, certificates, rawCA.value, rawCACerts, now, draw)
    {
      var ca, bundle := rawCA.value, rawCACerts;
      var res: map<string, SecretState> := map[];
      var remaining := certificates.Keys;
      while remaining != {}
        invariant remaining <= certificates.Keys && res.Keys == certificates.Keys - remaining
        invariant forall name :: name in res ==>
                    Buildable(rotation, certificates[name], ca, bundle, now)
                    && res[name] == RotateTarget(rotation, name, certificates[name], ca, bundle, now, draw)
        decreases |remaining|
      {
        var name :| name in remaining;
        remaining := remaining - {name};
        var cert := certificates[name];
        var secret := new Secret(name, cert.secret);
        var reason := TargetNeedsNewCertificate(secret.annotations, ca, bundle, cert.hostnames, rotation.targetRefresh,
                                                now);
        if reason.Some? {
          var err := secret.SetTargetCertKeyPair(rotation.targetValidity, ca, cert.hostnames, now, draw);
          if err.Some? {
            assert !Buildable(rotation, certificates[name], ca, bundle, now);
            return Err(err.value);
          }
        }
        res := res[name := SecretState(secret.annotations, secret.tls)];
      }
      assert res == map name | name in certificates ::
          RotateTarget(rotation, name, certificates[name], ca, bundle, now, draw);
      return Ok(res);
    }

    /** BuildAll: signer, then bundle, then targets. */
    method Build(now: nat, draw: nat) returns (r: Result<Built, BuildError>)
      modifies this`rawCA, this`rawCACerts
      ensures r == BuildAll(Value(), now, draw)
    {
      var signer := BuildSigningCASecret(now, draw);
      if signer.Err? { return Err(signer.error); }
      var bundle := BuildCABundle(now);
      if bundle.Err? { return Err(bundle.error); }
      var targets := BuildTargetCertKeyPairSecrets(now, draw);
      if targets.Err? { return Err(targets.error); }
      return Ok(Built(signer.value, bundle.value, targets.value));
    }

    /** ApplyDefaultSettings: components maps service names to secret names; secrets found earlier are kept. */
    method ApplyDefaultSettings(settings: RotationSettings, components: map<string, string>)
      modifies this`rotation, this`certificates
      ensures rotation == settings
      ensures certificates.Keys == old(certificates.Keys) + components.Values
      ensures forall name :: name in certificates ==>
                certificates[name].secret == StoredSecret(old(certificates), name)
      ensures forall name :: name in components.Values ==> Configured(components, namespace, name, certificates[name])
      ensures forall name :: name in certificates && name !in components.Values ==>
                certificates[name] == old(certificates)[name]
    {
      rotation := settings;
      ghost var before := certificates;
      var remaining := components.Keys;
      while remaining != {}
        invariant remaining <= components.Keys && rotation == settings
        invariant Defaulted(before, certificates, components, namespace, remaining)
        decreases |remaining|
      {
        var service :| service in remaining;
        ghost var current, left := certificates, remaining;
        remaining := remaining - {service};
        var name := components[service];
        var cert := if name in certificates then certificates[name] else SelfSignedCertKey(None, {});
        certificates := certificates[name := cert.(hostnames := Hostnames(service, namespace))];
        DefaultOneMore(before, current, components, namespace, left, service);
      }
    }
  }

  /** Some services have been given their names. */
  ghost predicate Defaulted(before: map<string, SelfSignedCertKey>, certificates: map<string, SelfSignedCertKey>,
                            components: map<string, string>, namespace: string, remaining: set<string>)
  {
    && before.Keys <= certificates.Keys <= before.Keys + components.Values
    && (forall name :: name in certificates ==> certificates[name].secret == StoredSecret(before, name))
    && (forall s :: s in components && s !in remaining ==>
          components[s] in certificates
          && Configured(components, namespace, components[s], certificates[components[s]]))
    && (forall name :: name in certificates && name !in components.Values ==> certificates[name] == before[name])
  }

  lemma DefaultOneMore(before: map<string, SelfSignedCertKey>, certificates: map<string, SelfSignedCertKey>,
                       components: map<string, string>, namespace: string, remaining: set<string>, service: string)
    requires service in remaining && service in components
    requires Defaulted(before, certificates, components, namespace, remaining)
    ensures var name := components[service];
            var cert := if name in certificates then certificates[name] else SelfSignedCertKey(None, {});
            Defaulted(before, certificates[name := cert.(hostnames := Hostnames(service, namespace))], components,
                      namespace, remaining - {service})
  {
    var name := components[service];
    var cert := if name in certificates then certificates[name] else SelfSignedCertKey(None, {});
    var configured := cert.(hostnames := Hostnames(service, namespace));
    assert name in components.Values;
    assert Configured(components, namespace, name, configured);
    hide Hostnames, Configured;
    var next := certificates[name := configured];
    forall s | s in components && s !in remaining - {service}
      ensures components[s] in next && Configured(components, namespace, components[s], next[components[s]])
    {}
  }

  function StoredSecret(certificates: map<string, SelfSignedCertKey>, name: string): Option<SecretState> {
    if name in certificates then certificates[name].secret else None
  }

  /** The certificate must carry the names of the service its secret belongs to. */
  ghost predicate Configured(components: map<string, string>, namespace: string, name: string, k: SelfSignedCertKey) {
    exists service :: service in components && components[service] == name
        && k.hostnames == Hostnames(service, namespace)
  }

  /** The names a component's service is reached under. */
  function Hostnames(service: string, namespace: string): set<string> {
    {"localhost", service + "." + namespace + ".svc.cluster.local", service + "." + namespace + ".svc"}
  }

  /** The default names survive the hostname annotation, for service and namespace names without a comma. */
  lemma HostnamesRepresentable(service: string, namespace: string)
    requires ',' !in service && ',' !in namespace
    ensures Representable(Hostnames(service, namespace))
  {
    assert "localhost" in Hostnames(service, namespace);
  }
}
