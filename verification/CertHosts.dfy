/** Required hostnames that change while the operator runs: what the checker and the next pass make of it. */
module CertHosts {
  import opened Wrappers
  import opened Strings
  import opened Certificates
  import opened Rotation
  import opened CertBuild
  import opened CertHandlers
  import opened CertSafety
  import opened CertBounds
  import opened CertTrust
  import opened CertPolling

  /** An event of before, or other names are required from now on. */
  datatype Occurrence = Happens(e: Event) | Requires(hosts: map<string, set<string>>)

  ghost predicate AllRepresentable(hosts: map<string, set<string>>) {
    forall name :: name in hosts ==> Representable(hosts[name])
  }

  function StackAfter(k: Stack, o: Occurrence): Stack {
    if o.Requires? then k.(hosts := o.hosts) else k
  }

  ghost function After(k: Stack, w: World, o: Occurrence): World {
    if o.Requires? then w else Step(k, w, o.e)
  }

  ghost predicate CanOccur(k: Stack, w: World, os: seq<Occurrence>)
    decreases |os|
  {
    os == []
    || ((if os[0].Requires? then AllRepresentable(os[0].hosts) else Enabled(k, w, os[0].e))
        && CanOccur(StackAfter(k, os[0]), After(k, w, os[0]), os[1..]))
  }

  /** The stack and the world after the occurrences. */
  ghost function Outcome(k: Stack, w: World, os: seq<Occurrence>): (Stack, World)
    decreases |os|
  {
    if os == [] then (k, w) else Outcome(StackAfter(k, os[0]), After(k, w, os[0]), os[1..])
  }

  // ---------- what such a run keeps ----------

  /** The stack for which the stored certificates would be right: each carries the names it carries. */
  function Carried(k: Stack, c: Cluster): Stack {
    k.(hosts := map name | name in c.targets && c.targets[name].tls.Some? :: c.targets[name].tls.value.hostnames)
  }

  /** All is well but for the names. */
  ghost predicate Genuine(k: Stack, w: World) {
    WellFormed(Carried(k, w.cluster), w) && AllRepresentable(Carried(k, w.cluster).hosts) && AllRepresentable(k.hosts)
  }

  lemma GenuineTargets(k: Stack, w: World, name: string)
    requires Genuine(k, w) && name in w.cluster.targets
    ensures GenuineTarget(w.cas, w.draws, w.cluster.targets[name])
    ensures Representable(w.cluster.targets[name].tls.value.hostnames)
  {
    assert GoodTarget(Carried(k, w.cluster), w.cas, w.draws, name, w.cluster.targets[name]);
    assert name in Carried(k, w.cluster).hosts;
  }

  /** What a build needs, apart from names. */
  lemma BuildStages(k: Stack, c: Cluster, now: nat, draw: nat)
    requires RotateSigner(k.rotation, k.issuer, c.signer, now, draw).Ok? && c.bundle != Some(Unparsable)
    requires forall name :: name in k.hosts ==> k.hosts[name] != {}
    ensures BuildFor(k, c, now, draw).Ok?
    ensures var b, signer := BuildFor(k, c, now, draw).value,
            RotateSigner(k.rotation, k.issuer, c.signer, now, draw).value;
            b.signer == signer && signer.tls.Some? && b.bundle == Rebuilt(signer.tls.value, StoredCerts(c.bundle), now)
  {
    hide NeedNewCertificate, TargetDue, Rebuilt;
  }

  lemma SignerRotates(k: Stack, w: World, draw: nat)
    requires WellFormed(k, w) && k.issuer != ""
    ensures RotateSigner(k.rotation, k.issuer, w.cluster.signer, w.now, draw).Ok?
  {
    hide Rebuilt;
  }

  /** Whatever names are required, the same signer and bundle are built. */
  lemma SameSigner(k: Stack, w: World, draw: nat)
    requires Genuine(k, w) && k.issuer != ""
    ensures BuildFor(k, w.cluster, w.now, draw).Ok? && BuildFor(Carried(k, w.cluster), w.cluster, w.now, draw).Ok?
    ensures var b, b' := BuildFor(k, w.cluster, w.now, draw).value,
                         BuildFor(Carried(k, w.cluster), w.cluster, w.now, draw).value;
            b.signer == b'.signer && b.bundle == b'.bundle
  {
    assert w.cluster.bundle != Some(Unparsable);
    NamesAreThere(k.hosts);
    NamesAreThere(Carried(k, w.cluster).hosts);
    hide WellFormed, BuildFor, RotateSigner, AllRepresentable;
    SignerRotates(Carried(k, w.cluster), w, draw);
    BuildStages(k, w.cluster, w.now, draw);
    BuildStages(Carried(k, w.cluster), w.cluster, w.now, draw);
  }

  lemma NamesAreThere(hosts: map<string, set<string>>)
    requires AllRepresentable(hosts)
    ensures forall name :: name in hosts ==> hosts[name] != {}
  {}

  lemma BuiltIsNamed(k: Stack, w: World, draw: nat, name: string)
    requires Genuine(k, w) && k.issuer != "" && Enabled(k, w, Pass(draw, {})) && name in k.hosts
    ensures BuildFor(k, w.cluster, w.now, draw).Ok? && name in BuildFor(k, w.cluster, w.now, draw).value.targets
    ensures var b := BuildFor(k, w.cluster, w.now, draw).value;
            var s := b.targets[name];
            && GenuineTarget(CAsAfter(k, w, draw), w.draws + {draw}, s)
            && s.tls.value.hostnames == k.hosts[name]
            && (s.tls.value.Unexpired(w.now) ==> InBundle(b.bundle, s.tls.value))
  {
    SameSigner(k, w, draw);
    BuildParts(k, w.cluster, w.now, draw);
    var b := BuildFor(k, w.cluster, w.now, draw).value;
    var cas, draws := CAsAfter(k, w, draw), w.draws + {draw};
    var key := SelfSignedCertKey(Lookup(w.cluster.targets, name), k.hosts[name]);
    HistoryGrows(Carried(k, w.cluster), w, draw);
    BuiltSignerIsGood(Carried(k, w.cluster), w, draw);
    if name in w.cluster.targets { GenuineTargets(k, w, name); }
    hide BuildFor, WellFormed, Enabled, Genuine;
    RotatedIsNamed(k, cas, draws, name, Lookup(w.cluster.targets, name), b.signer.tls.value, b.bundle, w.now, draw);
  }

  /** Rotating a target of any names gives one with the required names. */
  lemma RotatedIsNamed(k: Stack, cas: set<Certificate>, draws: set<nat>, name: string, stored: Option<SecretState>,
                       signer: Certificate, bundle: seq<Certificate>, now: nat, draw: nat)
    requires name in k.hosts && draw in draws && signer in cas && Identified(cas)
    requires stored.Some? ==> GenuineTarget(cas, draws, stored.value) && Representable(stored.value.tls.value.hostnames)
    requires forall ca :: ca in bundle ==> ca in cas
    requires signer.Unexpired(now) ==> signer in bundle
    ensures var s := RotateTarget(k.rotation, name, SelfSignedCertKey(stored, k.hosts[name]), signer, bundle, now,
                                  draw);
            && GenuineTarget(cas, draws, s) && s.tls.value.hostnames == k.hosts[name]
            && (s.tls.value.Unexpired(now) ==> InBundle(bundle, s.tls.value))
  {
    var key := SelfSignedCertKey(stored, k.hosts[name]);
    var s := RotateTarget(k.rotation, name, key, signer, bundle, now, draw);
    if TargetDue(k.rotation, key, signer, bundle, now) {
      assert Signed(signer, s.tls.value);
    } else {
      var cert := s.tls.value;
      QuietMeansNamed(cert, signer, bundle, k.hosts[name], k.rotation.targetRefresh, now);
      QuietExactly(s.annotations, signer, bundle, k.hosts[name], k.rotation.targetRefresh, now);
      var issuer :| issuer in bundle && issuer.subject == cert.issuer;
      var ca :| ca in cas && Signed(ca, cert);
      assert issuer == ca;
    }
  }

  lemma StepKeepsGenuine(k: Stack, w: World, e: Event)
    requires Genuine(k, w) && k.issuer != "" && Enabled(k, w, e)
    ensures Genuine(k, Step(k, w, e))
  {
    if e.Tick? {
      StepKeepsWellFormed(Carried(k, w.cluster), w, e);
    } else {
      PassKeepsGenuine(k, w, e);
    }
  }

  lemma PassKeepsGenuine(k: Stack, w: World, e: Event)
    requires Genuine(k, w) && k.issuer != "" && e.Pass? && Enabled(k, w, e)
    ensures Genuine(k, Step(k, w, e))
  {
    var cas, draws := CAsAfter(k, w, e.draw), w.draws + {e.draw};
    SameSigner(k, w, e.draw);
    BuildParts(k, w.cluster, w.now, e.draw);
    var b := BuildFor(k, w.cluster, w.now, e.draw).value;
    HistoryGrows(Carried(k, w.cluster), w, e.draw);
    PassObjects(k, w, e.draw, b);
    hide BuildFor, Enabled, CAsAfter, GenuineNamed, Persist, GenuineCluster, GoodSigner;
    PersistIsGenuine(cas, draws, w.cluster, b, e.written);
    CarriedIsGood(k, cas, draws, Persist(w.cluster, b, e.written));
  }

  /** What is stored and what is built is genuine. */
  lemma PassObjects(k: Stack, w: World, draw: nat, b: Built)
    requires Genuine(k, w) && k.issuer != "" && Enabled(k, w, Pass(draw, {}))
    requires BuildFor(k, w.cluster, w.now, draw) == Ok(b)
    ensures var cas, draws := CAsAfter(k, w, draw), w.draws + {draw};
            && GenuineCluster(cas, draws, w.cluster) && GoodSigner(cas, b.signer)
            && (forall ca :: ca in b.bundle ==> ca in cas)
            && (forall name :: name in b.targets ==> GenuineNamed(cas, draws, b.targets[name]))
  {
    var cas, draws := CAsAfter(k, w, draw), w.draws + {draw};
    SameSigner(k, w, draw);
    BuildParts(k, w.cluster, w.now, draw);
    BuiltSignerIsGood(Carried(k, w.cluster), w, draw);
    hide Enabled, Representable, SignerDue;
    StoredIsGenuine(k, w, cas, draws);
    forall name | name in b.targets ensures GenuineNamed(cas, draws, b.targets[name]) {
      BuiltIsNamed(k, w, draw, name);
    }
  }

  lemma StoredIsGenuine(k: Stack, w: World, cas: set<Certificate>, draws: set<nat>)
    requires Genuine(k, w) && w.cas <= cas && w.draws <= draws
    ensures GenuineCluster(cas, draws, w.cluster)
  {
    hide Representable;
    forall name | name in w.cluster.targets ensures GenuineNamed(cas, draws, w.cluster.targets[name]) {
      GenuineTargets(k, w, name);
    }
  }

  ghost predicate GenuineNamed(cas: set<Certificate>, draws: set<nat>, s: SecretState) {
    GenuineTarget(cas, draws, s) && Representable(s.tls.value.hostnames)
  }

  /** Every stored object is genuine, whatever names it carries. */
  ghost predicate GenuineCluster(cas: set<Certificate>, draws: set<nat>, c: Cluster) {
    && (c.signer.Some? ==> GoodSigner(cas, c.signer.value))
    && c.bundle != Some(Unparsable)
    && (forall ca :: ca in StoredCerts(c.bundle) ==> ca in cas)
    && (forall name :: name in c.targets ==> GenuineNamed(cas, draws, c.targets[name]))
  }

  lemma CarriedIsGood(k: Stack, cas: set<Certificate>, draws: set<nat>, c: Cluster)
    requires GenuineCluster(cas, draws, c)
    ensures GoodCluster(Carried(k, c), cas, draws, c) && AllRepresentable(Carried(k, c).hosts)
  {
    forall name | name in c.targets
      ensures GoodTarget(Carried(k, c), cas, draws, name, c.targets[name])
      ensures Representable(Carried(k, c).hosts[name])
    {
      assert GenuineNamed(cas, draws, c.targets[name]);
    }
    hide GoodSigner, GoodTarget;
  }

  lemma PersistIsGenuine(cas: set<Certificate>, draws: set<nat>, c: Cluster, b: Built, written: set<ObjectRef>)
    requires GenuineCluster(cas, draws, c) && GoodSigner(cas, b.signer) && forall ca :: ca in b.bundle ==> ca in cas
    requires forall name :: name in b.targets ==> GenuineNamed(cas, draws, b.targets[name])
    ensures GenuineCluster(cas, draws, Persist(c, b, written))
  {
    hide GenuineNamed, GoodSigner;
  }

  lemma BuiltBundleHolds(k: Stack, w: World, draw: nat)
    requires Genuine(k, w) && k.issuer != "" && k.rotation.caValidity >= 0 && Enabled(k, w, Pass(draw, {}))
    ensures BuildFor(k, w.cluster, w.now, draw).Ok? && BuildFor(k, w.cluster, w.now, draw).value.bundle != []
  {
    SameSigner(k, w, draw);
    var b := BuildFor(k, w.cluster, w.now, draw).value;
    BuildParts(k, w.cluster, w.now, draw);
    SignerFacts(Carried(k, w.cluster), w, draw, b.signer);
    RebuiltHoldsSigner(b.signer.tls.value, StoredCerts(w.cluster.bundle), w.now);
  }

  lemma {:induction false} OccurrencesKeepGenuine(k: Stack, w: World, os: seq<Occurrence>)
    requires Genuine(k, w) && k.issuer != "" && CanOccur(k, w, os)
    ensures var (k', w') := Outcome(k, w, os);
            && Genuine(k', w') && k'.issuer == k.issuer && k'.rotation == k.rotation
            && (k.rotation.caValidity >= 0 && BundleHolds(w.cluster) ==> BundleHolds(w'.cluster))
    decreases |os|
  {
    if os != [] {
      var k', w' := StackAfter(k, os[0]), After(k, w, os[0]);
      OccurrenceKeepsGenuine(k, w, os[0]);
      OccurrencesKeepGenuine(k', w', os[1..]);
    }
  }

  lemma OccurrenceKeepsGenuine(k: Stack, w: World, o: Occurrence)
    requires Genuine(k, w) && k.issuer != ""
    requires if o.Requires? then AllRepresentable(o.hosts) else Enabled(k, w, o.e)
    ensures Genuine(StackAfter(k, o), After(k, w, o))
    ensures k.rotation.caValidity >= 0 && BundleHolds(w.cluster) ==> BundleHolds(After(k, w, o).cluster)
  {
    if o.Happens? {
      StepKeepsGenuine(k, w, o.e);
      if o.e.Pass? && k.rotation.caValidity >= 0 {
        BuiltBundleHolds(k, w, o.e.draw);
        hide BuildFor, Genuine, Enabled;
      }
    } else {
      assert Carried(StackAfter(k, o), w.cluster) == Carried(k, w.cluster);
    }
  }

  lemma StartIsGenuine(k: Stack, start: nat)
    requires AllRepresentable(k.hosts)
    ensures Genuine(k, Init(start)) && BundleHolds(Init(start).cluster)
  {}

  // ---------- the checker ----------

  /** A check that reports nothing finds every certificate with the names that are required now. */
  lemma QuietCheckMeansNamed(k: Stack, w: World, name: string)
    requires Genuine(k, w) && AllStored(k, w.cluster) && StoredCerts(w.cluster.bundle) != [] && name in k.hosts
    requires !Check(InputsFor(k, w.cluster), w.now).Reports()
    ensures name in w.cluster.targets && w.cluster.targets[name].tls.Some?
    ensures w.cluster.targets[name].tls.value.hostnames == k.hosts[name]
  {
    var o := InputsFor(k, w.cluster);
    assert GoodSigner(w.cas, w.cluster.signer.value);
    ReportsSomeReason(o, w.now);
    assert CheckReason(o, name, w.now).None?;
    GenuineTargets(k, w, name);
    QuietMeansNamed(w.cluster.targets[name].tls.value, w.cluster.signer.value.tls.value, StoredCerts(w.cluster.bundle),
                    k.hosts[name], k.rotation.targetRefresh, w.now);
  }

  // ---------- a full pass ----------

  lemma FullPassStores(k: Stack, w: World, e: Event)
    requires IsFull(k, e) && BuildFor(k, w.cluster, w.now, e.draw).Ok?
    ensures var b, c := BuildFor(k, w.cluster, w.now, e.draw).value, Step(k, w, e).cluster;
            && (forall name :: name in k.hosts ==>
                name in b.targets && name in c.targets && c.targets[name] == b.targets[name])
            && (w.cluster.targets.Keys <= k.hosts.Keys ==> c == Stored(b))
  {
    BuildParts(k, w.cluster, w.now, e.draw);
    var b := BuildFor(k, w.cluster, w.now, e.draw).value;
    hide BuildFor;
    if w.cluster.targets.Keys <= k.hosts.Keys { FullPersist(w.cluster, b, e.written); }
  }

  /** After a full pass every required certificate is there with the required names. */
  lemma FullPassRenames(k: Stack, w: World, e: Event)
    requires Genuine(k, w) && k.issuer != "" && Enabled(k, w, e) && IsFull(k, e)
    ensures var c := Step(k, w, e).cluster;
            forall name :: name in k.hosts ==>
              name in c.targets && c.targets[name].tls.Some? && c.targets[name].tls.value.hostnames == k.hosts[name]
  {
    SameSigner(k, w, e.draw);
    FullPassStores(k, w, e);
    forall name | name in k.hosts
      ensures var c := Step(k, w, e).cluster;
              c.targets[name].tls.Some? && c.targets[name].tls.value.hostnames == k.hosts[name]
    {
      BuiltIsNamed(k, w, e.draw, name);
      hide BuildFor, Genuine, Enabled;
    }
  }

  /** And if nothing else is stored, all is well again. */
  lemma FullPassRestores(k: Stack, w: World, e: Event)
    requires Genuine(k, w) && k.issuer != "" && Enabled(k, w, e) && IsFull(k, e)
    requires w.cluster.targets.Keys <= k.hosts.Keys
    ensures WellFormed(k, Step(k, w, e)) && Anchored(Step(k, w, e).cluster, w.now)
  {
    FullPassRenames(k, w, e);
    StepKeepsGenuine(k, w, e);
    SameSigner(k, w, e.draw);
    FullPassStores(k, w, e);
    BuiltAnchored(k, w, e.draw);
    BuildParts(k, w.cluster, w.now, e.draw);
    hide BuildFor, Genuine, Enabled, Anchored;
    NamedIsWellFormed(k, Step(k, w, e));
  }

  lemma BuiltAnchored(k: Stack, w: World, draw: nat)
    requires Genuine(k, w) && k.issuer != "" && Enabled(k, w, Pass(draw, {}))
    ensures BuildFor(k, w.cluster, w.now, draw).Ok?
    ensures Anchored(Stored(BuildFor(k, w.cluster, w.now, draw).value), w.now)
  {
    SameSigner(k, w, draw);
    BuildParts(k, w.cluster, w.now, draw);
    var b := BuildFor(k, w.cluster, w.now, draw).value;
    forall name | name in b.targets && b.targets[name].tls.Some? && b.targets[name].tls.value.Unexpired(w.now)
      ensures InBundle(b.bundle, b.targets[name].tls.value)
    {
      BuiltIsNamed(k, w, draw, name);
    }
    hide BuildFor, InBundle;
  }

  lemma NamedIsWellFormed(k: Stack, w: World)
    requires Genuine(k, w) && w.cluster.targets.Keys == k.hosts.Keys
    requires forall name :: name in k.hosts ==> w.cluster.targets[name].tls.Some?
    requires forall name :: name in k.hosts ==> w.cluster.targets[name].tls.value.hostnames == k.hosts[name]
    ensures WellFormed(k, w)
  {
    hide WellFormed, Representable;
    assert Carried(k, w.cluster).hosts == k.hosts;
    assert Carried(k, w.cluster) == k;
  }

  // ---------- main results ----------

  /** Over every run in which any writes fail and required names change: once all objects exist, a check that reports
      nothing means that every certificate has the names that are required now. */
  lemma NewNamesAreReported(k0: Stack, start: nat, os: seq<Occurrence>)
    requires AllRepresentable(k0.hosts) && k0.issuer != "" && k0.rotation.caValidity >= 0
    requires CanOccur(k0, Init(start), os)
    requires AllStored(Outcome(k0, Init(start), os).0, Outcome(k0, Init(start), os).1.cluster)
    ensures var (k, w) := Outcome(k0, Init(start), os);
            (exists name :: name in k.hosts && (w.cluster.targets[name].tls.None?
                                                || w.cluster.targets[name].tls.value.hostnames != k.hosts[name])) ==>
              Check(InputsFor(k, w.cluster), w.now).Reports()
  {
    StartIsGenuine(k0, start);
    OccurrencesKeepGenuine(k0, Init(start), os);
    var (k, w) := Outcome(k0, Init(start), os);
    hide Genuine, Check, InputsFor;
    if !Check(InputsFor(k, w.cluster), w.now).Reports() {
      forall name | name in k.hosts
        ensures w.cluster.targets[name].tls.Some? && w.cluster.targets[name].tls.value.hostnames == k.hosts[name]
      {
        QuietCheckMeansNamed(k, w, name);
      }
    }
  }

  /** And a full pass leaves every required certificate with the names that are required now. */
  lemma NewNamesTakeEffect(k0: Stack, start: nat, os: seq<Occurrence>, e: Event)
    requires AllRepresentable(k0.hosts) && k0.issuer != "" && CanOccur(k0, Init(start), os)
    requires Enabled(Outcome(k0, Init(start), os).0, Outcome(k0, Init(start), os).1, e)
    requires IsFull(Outcome(k0, Init(start), os).0, e)
    ensures var (k, w) := Outcome(k0, Init(start), os);
            var c := Step(k, w, e).cluster;
            forall name :: name in k.hosts ==>
              name in c.targets && c.targets[name].tls.Some? && c.targets[name].tls.value.hostnames == k.hosts[name]
  {
    StartIsGenuine(k0, start);
    OccurrencesKeepGenuine(k0, Init(start), os);
    hide Genuine, Enabled;
    FullPassRenames(Outcome(k0, Init(start), os).0, Outcome(k0, Init(start), os).1, e);
  }

  // ---------- service under the new names ----------

  /** Settings under which every target that is issued lives long enough. */
  predicate LongSettings(r: RotationSettings) { r.caValidity >= 0 && r.caValidity != r.caRefresh }

  predicate Long(k: Stack, s: SecretState) {
    s.tls.Some? ==> s.tls.value.Validity() >= LeastValidity(k.rotation)
  }

  lemma RotatedLong(k: Stack, key: SelfSignedCertKey, signer: Certificate, bundle: seq<Certificate>, name: string,
                    now: nat, draw: nat)
    requires signer.notAfter - now >= k.rotation.caValidity / 5
    requires key.secret.Some? ==> Long(k, key.secret.value)
    ensures Long(k, RotateTarget(k.rotation, name, key, signer, bundle, now, draw))
  {
    hide TargetDue;
  }

  lemma RotatedFresh(k: Stack, key: SelfSignedCertKey, signer: Certificate, bundle: seq<Certificate>, name: string,
                     now: nat, draw: nat)
    requires SoundSettings(k, 0) && signer.notAfter - now >= k.rotation.caValidity / 5
    requires key.secret.Some? ==> Long(k, key.secret.value) && key.secret.value.tls.Some?
                                  && Describes(key.secret.value.annotations, key.secret.value.tls.value)
    ensures var s := RotateTarget(k.rotation, name, key, signer, bundle, now, draw);
            s.tls.Some? ==> FreshTarget(k.rotation, s.tls.value, now)
  {
    if !TargetDue(k.rotation, key, signer, bundle, now) && key.secret.Some? {
      QuietTargetFresh(k, key.secret.value, signer, now);
    }
  }

  lemma SignerLasts(k: Stack, w: World, draw: nat)
    requires Genuine(k, w) && k.issuer != "" && Enabled(k, w, Pass(draw, {})) && LongSettings(k.rotation)
    ensures BuildFor(k, w.cluster, w.now, draw).Ok?
    ensures var b := BuildFor(k, w.cluster, w.now, draw).value;
            b.signer.tls.Some? && b.signer.tls.value.notAfter - w.now >= k.rotation.caValidity / 5
  {
    SameSigner(k, w, draw);
    BuildParts(k, w.cluster, w.now, draw);
    SignerFacts(Carried(k, w.cluster), w, draw, BuildFor(k, w.cluster, w.now, draw).value.signer);
  }

  lemma BuiltLongEnough(k: Stack, w: World, draw: nat, name: string)
    requires Genuine(k, w) && k.issuer != "" && Enabled(k, w, Pass(draw, {})) && LongSettings(k.rotation)
    requires LongEnough(k, w.cluster) && name in k.hosts
    ensures BuildFor(k, w.cluster, w.now, draw).Ok? && name in BuildFor(k, w.cluster, w.now, draw).value.targets
    ensures var s := BuildFor(k, w.cluster, w.now, draw).value.targets[name];
            Long(k, s) && (SoundSettings(k, 0) && s.tls.Some? ==> FreshTarget(k.rotation, s.tls.value, w.now))
  {
    SignerLasts(k, w, draw);
    BuildParts(k, w.cluster, w.now, draw);
    var b := BuildFor(k, w.cluster, w.now, draw).value;
    var key := SelfSignedCertKey(Lookup(w.cluster.targets, name), k.hosts[name]);
    if name in w.cluster.targets { GenuineTargets(k, w, name); }
    hide BuildFor, Genuine, Enabled, SoundSettings, FreshTarget, RotateTarget, RotateSigner, Rebuilt;
    RotatedLong(k, key, b.signer.tls.value, b.bundle, name, w.now, draw);
    if SoundSettings(k, 0) { RotatedFresh(k, key, b.signer.tls.value, b.bundle, name, w.now, draw); }
  }

  lemma PersistKeepsLong(k: Stack, c: Cluster, b: Built, written: set<ObjectRef>)
    requires LongEnough(k, c) && forall name :: name in b.targets ==> Long(k, b.targets[name])
    ensures LongEnough(k, Persist(c, b, written))
  {}

  lemma OccurrenceKeepsLong(k: Stack, w: World, o: Occurrence)
    requires Genuine(k, w) && k.issuer != "" && LongSettings(k.rotation) && LongEnough(k, w.cluster)
    requires if o.Requires? then AllRepresentable(o.hosts) else Enabled(k, w, o.e)
    ensures LongEnough(StackAfter(k, o), After(k, w, o).cluster)
  {
    if o.Happens? && o.e.Pass? {
      SameSigner(k, w, o.e.draw);
      BuildParts(k, w.cluster, w.now, o.e.draw);
      hide BuildFor, Genuine, LongEnough, Long, Persist;
      var b := BuildFor(k, w.cluster, w.now, o.e.draw).value;
      forall name | name in b.targets ensures Long(k, b.targets[name]) {
        BuiltLongEnough(k, w, o.e.draw, name);
      }
      PersistKeepsLong(k, w.cluster, b, o.e.written);
    }
  }

  lemma {:induction false} OccurrencesKeepLong(k: Stack, w: World, os: seq<Occurrence>)
    requires Genuine(k, w) && k.issuer != "" && LongSettings(k.rotation) && LongEnough(k, w.cluster)
    requires CanOccur(k, w, os)
    ensures LongEnough(Outcome(k, w, os).0, Outcome(k, w, os).1.cluster)
    decreases |os|
  {
    if os != [] {
      OccurrenceKeepsLong(k, w, os[0]);
      OccurrenceKeepsGenuine(k, w, os[0]);
      OccurrencesKeepLong(StackAfter(k, os[0]), After(k, w, os[0]), os[1..]);
    }
  }

  /** A full pass heals whatever the names were. */
  lemma FullPassHeals(k: Stack, w: World, draw: nat)
    requires Genuine(k, w) && SoundSettings(k, 0) && LongEnough(k, w.cluster) && Enabled(k, w, PassOf(k, draw))
    requires w.cluster.targets.Keys <= k.hosts.Keys
    ensures Healthy(k, Step(k, w, PassOf(k, draw)))
  {
    var e := PassOf(k, draw);
    SameSigner(k, w, draw);
    FullPassStores(k, w, e);
    FullPassRestores(k, w, e);
    FullPassRenames(k, w, e);
    BuiltBundleHolds(k, w, draw);
    BuildParts(k, w.cluster, w.now, draw);
    var w' := Step(k, w, e);
    forall name | name in k.hosts
      ensures FreshTarget(k.rotation, w'.cluster.targets[name].tls.value, w.now)
    {
      BuiltLongEnough(k, w, draw, name);
    }
    hide BuildFor, Genuine, Enabled, WellFormed, Anchored, FreshTarget, LongEnough;
  }

  /** From that pass on every component is served under its new names at every instant, under the conditions of
      NoOutage. */
  lemma NewNamesAreServed(k0: Stack, start: nat, os: seq<Occurrence>, draw: nat, beats: seq<Beat>, n: nat, gap: nat)
    requires AllRepresentable(k0.hosts) && k0.issuer != "" && CanOccur(k0, Init(start), os)
    requires var (k, w) := Outcome(k0, Init(start), os);
             && SoundSettings(k, (n + 1) * gap) && Paced(beats, gap) && Enabled(k, w, PassOf(k, draw))
             && w.cluster.targets.Keys <= k.hosts.Keys
             && CanPoll(k, Step(k, w, PassOf(k, draw)), beats)
             && Tolerable(k, Step(k, w, PassOf(k, draw)), beats, n, n)
    ensures var (k, w) := Outcome(k0, Init(start), os);
            AlwaysServing(k, Step(k, w, PassOf(k, draw)), beats)
  {
    StartIsGenuine(k0, start);
    OccurrencesKeepGenuine(k0, Init(start), os);
    var (k, w) := Outcome(k0, Init(start), os);
    SoundWithout(k, Gaps(n, gap));
    OccurrencesKeepLong(k0, Init(start), os);
    hide Genuine, Enabled, CanPoll, Tolerable, Healthy, LongEnough, Outcome;
    FullPassHeals(k, w, draw);
    var w' := Step(k, w, PassOf(k, draw));
    HealthyLasts(k, w');
    LastingForever(k, w', beats, n, n, gap, w'.now + LeastValidity(k.rotation) / 5);
  }

  // ---------- the names a component is reached under ----------

  /** The certificate of a component's secret must carry the three names of its service, and no others. */
  lemma RequiredNames(components: map<string, string>, namespace: string, service: string)
    requires Injective(components) && service in components
    ensures components[service] in HostsOf(components, namespace)
    ensures HostsOf(components, namespace)[components[service]]
         == {"localhost", service + "." + namespace + ".svc", service + "." + namespace + ".svc.cluster.local"}
  {}

  /** So it does after a full pass. */
  lemma ReachedUnderItsNames(k: Stack, w: World, e: Event, components: map<string, string>, namespace: string,
                             service: string)
    requires Genuine(k, w) && k.issuer != "" && Enabled(k, w, e) && IsFull(k, e)
    requires k.hosts == HostsOf(components, namespace) && Injective(components) && service in components
    ensures var c, secret := Step(k, w, e).cluster, components[service];
            && secret in c.targets && c.targets[secret].tls.Some?
            && c.targets[secret].tls.value.hostnames
                 == {"localhost", service + "." + namespace + ".svc", service + "." + namespace + ".svc.cluster.local"}
  {
    RequiredNames(components, namespace, service);
    hide Genuine, Enabled, IsFull, HostsOf;
    FullPassRenames(k, w, e);
  }
}
