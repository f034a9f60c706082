/** Safety of certificate rotation over whole runs: passes of the handler, each storing any part of what it built,
    interleaved with the passing of time. */
module CertSafety {
  import opened Wrappers
  import opened Certificates
  import opened Rotation
  import opened CertBuild
  import opened CertHandlers

  /** The cluster, the clock, and the history: every CA ever made and every random draw ever used. */
  datatype World = World(cluster: Cluster, cas: set<Certificate>, draws: set<nat>, now: nat)

  /** Time passes; or one pass builds everything and stores the objects in written. */
  datatype Event = Tick(elapsed: nat) | Pass(draw: nat, written: set<ObjectRef>)

  function Init(now: nat): World {
    World(Cluster(None, None, map[]), {}, {}, now)
  }

  function NewCA(k: Stack, now: nat, draw: nat): Certificate {
    MakeSelfSignedCA(SignerName(k.issuer, now), k.rotation.caValidity, now, draw)
  }

  predicate MakesCA(k: Stack, w: World) {
    SignerDue(k.rotation, w.cluster.signer, w.now)
  }

  /** Draws are never repeated, and no two CAs of a stack are made within one second. */
  predicate Enabled(k: Stack, w: World, e: Event) {
    e.Pass? ==>
      e.draw !in w.draws
      && (MakesCA(k, w) ==> forall ca :: ca in w.cas ==> Second(Positive(ca.notBefore)) != Second(w.now))
  }

  function Positive(t: int): nat { if t >= 0 then t else 0 }

  function CAsAfter(k: Stack, w: World, draw: nat): set<Certificate> {
    if MakesCA(k, w) then w.cas + {NewCA(k, w.now, draw)} else w.cas
  }

  ghost function Step(k: Stack, w: World, e: Event): World {
    match e
    case Tick(elapsed) => w.(now := w.now + elapsed)
    case Pass(draw, written) =>
      var built := BuildFor(k, w.cluster, w.now, draw);
      World(if built.Err? then w.cluster else Persist(w.cluster, built.value, written),
            CAsAfter(k, w, draw), w.draws + {draw}, w.now)
  }

  ghost predicate CanRun(k: Stack, w: World, events: seq<Event>)
    decreases |events|
  {
    events == [] || (Enabled(k, w, events[0]) && CanRun(k, Step(k, w, events[0]), events[1..]))
  }

  ghost function Run(k: Stack, w: World, events: seq<Event>): World
    decreases |events|
  {
    if events == [] then w else Run(k, Step(k, w, events[0]), events[1..])
  }

  // ---------- what every run keeps ----------

  /** ca issued cert, and cert does not outlive it. */
  predicate Signed(ca: Certificate, cert: Certificate) {
    cert.signedBy == ca.key && cert.issuer == ca.subject && cert.notAfter <= ca.notAfter
  }

  predicate GenuineCA(k: Stack, draws: set<nat>, now: int, ca: Certificate) {
    && 0 <= ca.notBefore <= now
    && ca.key.CAKey? && ca.key.draw in draws
    && ca == NewCA(k, ca.notBefore, ca.key.draw)
  }

  ghost predicate GoodHistory(k: Stack, cas: set<Certificate>, draws: set<nat>, now: int) {
    Identified(cas) && forall ca :: ca in cas ==> GenuineCA(k, draws, now, ca)
  }

  /** The name and the key of a CA each identify it. */
  ghost predicate Identified(cas: set<Certificate>) {
    forall a, b :: a in cas && b in cas && (a.subject == b.subject || a.key == b.key) ==> a == b
  }

  /** The annotations describe the certificate, and some CA issued it. */
  ghost predicate GenuineTarget(cas: set<Certificate>, draws: set<nat>, s: SecretState) {
    && s.tls.Some? && s.annotations == TargetAnnotations(s.tls.value)
    && s.tls.value.key.draw in draws
    && exists ca :: ca in cas && Signed(ca, s.tls.value)
  }

  ghost predicate GoodTarget(k: Stack, cas: set<Certificate>, draws: set<nat>, name: string, s: SecretState) {
    GenuineTarget(cas, draws, s) && name in k.hosts && s.tls.value.hostnames == k.hosts[name]
  }

  ghost predicate GoodSigner(cas: set<Certificate>, s: SecretState) {
    s.tls.Some? && s.tls.value in cas && Describes(s.annotations, s.tls.value)
  }

  ghost predicate GoodCluster(k: Stack, cas: set<Certificate>, draws: set<nat>, c: Cluster) {
    && (c.signer.Some? ==> GoodSigner(cas, c.signer.value))
    && c.bundle != Some(Unparsable)
    && (forall ca :: ca in StoredCerts(c.bundle) ==> ca in cas)
    && (forall name :: name in c.targets ==> GoodTarget(k, cas, draws, name, c.targets[name]))
  }

  ghost predicate WellFormed(k: Stack, w: World) {
    GoodHistory(k, w.cas, w.draws, w.now) && GoodCluster(k, w.cas, w.draws, w.cluster)
  }

  /** A new CA's name and key differ from those of every earlier CA. */
  lemma HistoryGrows(k: Stack, w: World, draw: nat)
    requires GoodHistory(k, w.cas, w.draws, w.now) && Enabled(k, w, Pass(draw, {}))
    ensures GoodHistory(k, CAsAfter(k, w, draw), w.draws + {draw}, w.now)
  {
    forall ca | MakesCA(k, w) && ca in w.cas
      ensures ca.subject != NewCA(k, w.now, draw).subject && ca.key != NewCA(k, w.now, draw).key
    {
      assert GenuineCA(k, w.draws, w.now, ca);
      if ca.subject == NewCA(k, w.now, draw).subject {
        SignerNameInjective(k.issuer, ca.notBefore, w.now);
      }
    }
    assert forall ca :: ca in w.cas ==> GenuineCA(k, w.draws, w.now, ca);
  }

  ghost predicate InBundle(bundle: seq<Certificate>, cert: Certificate) {
    exists ca :: ca in bundle && Signed(ca, cert)
  }

  /** What one pass builds: genuine objects, and every target anchored in the bundle built beside it. */
  ghost predicate GoodBuild(k: Stack, cas: set<Certificate>, draws: set<nat>, now: int, stored: seq<Certificate>,
                            b: Built) {
    && GoodSigner(cas, b.signer)
    && b.bundle == Rebuilt(b.signer.tls.value, stored, now)
    && (forall ca :: ca in b.bundle ==> ca in cas)
    && b.targets.Keys == k.hosts.Keys
    && (forall name :: name in b.targets ==> GoodTarget(k, cas, draws, name, b.targets[name]))
    && (forall name :: name in b.targets ==>
          b.targets[name].tls.value.Unexpired(now) ==> InBundle(b.bundle, b.targets[name].tls.value))
  }

  lemma RotatedTargetIsGood(k: Stack, cas: set<Certificate>, draws: set<nat>, name: string, stored: Option<SecretState>,
                            signer: Certificate, bundle: seq<Certificate>, now: nat, draw: nat)
    requires name in k.hosts && draw in draws && signer in cas && Identified(cas)
    requires stored.Some? ==> GoodTarget(k, cas, draws, name, stored.value)
    requires forall ca :: ca in bundle ==> ca in cas
    requires signer.Unexpired(now) ==> signer in bundle
    ensures var s := RotateTarget(k.rotation, name, SelfSignedCertKey(stored, k.hosts[name]), signer, bundle, now,
                                  draw);
            GoodTarget(k, cas, draws, name, s) && (s.tls.value.Unexpired(now) ==> InBundle(bundle, s.tls.value))
  {
    var key := SelfSignedCertKey(stored, k.hosts[name]);
    var s := RotateTarget(k.rotation, name, key, signer, bundle, now, draw);
    if TargetDue(k.rotation, key, signer, bundle, now) {
      assert Signed(signer, s.tls.value);
    } else {
      var cert := s.tls.value;
      var i :| 0 <= i < |bundle| && bundle[i].subject == cert.issuer;
      var ca :| ca in cas && Signed(ca, cert);
      assert bundle[i] in bundle && bundle[i] == ca;
    }
  }

  lemma BuiltSignerIsGood(k: Stack, w: World, draw: nat)
    requires WellFormed(k, w) && Enabled(k, w, Pass(draw, {}))
    requires BuildFor(k, w.cluster, w.now, draw).Ok?
    ensures var b := BuildFor(k, w.cluster, w.now, draw).value;
            && GoodSigner(CAsAfter(k, w, draw), b.signer)
            && b.bundle == Rebuilt(b.signer.tls.value, StoredCerts(w.cluster.bundle), w.now)
            && (forall ca :: ca in b.bundle ==> ca in CAsAfter(k, w, draw))
            && b.targets.Keys == k.hosts.Keys
  {
    var b := BuildFor(k, w.cluster, w.now, draw).value;
    assert forall ca :: ca in b.bundle ==> ca in [b.signer.tls.value] + StoredCerts(w.cluster.bundle);
  }

  lemma BuiltIsGood(k: Stack, w: World, draw: nat)
    requires WellFormed(k, w) && Enabled(k, w, Pass(draw, {}))
    requires BuildFor(k, w.cluster, w.now, draw).Ok?
    ensures GoodBuild(k, CAsAfter(k, w, draw), w.draws + {draw}, w.now, StoredCerts(w.cluster.bundle),
                      BuildFor(k, w.cluster, w.now, draw).value)
  {
    var b := BuildFor(k, w.cluster, w.now, draw).value;
    var cas, draws := CAsAfter(k, w, draw), w.draws + {draw};
    hide BuildFor, WellFormed, Enabled, CAsAfter, GoodSigner, GoodTarget, InBundle, Rebuilt;
    BuiltSignerIsGood(k, w, draw);
    forall name | name in b.targets
      ensures GoodTarget(k, cas, draws, name, b.targets[name])
      ensures b.targets[name].tls.value.Unexpired(w.now) ==> InBundle(b.bundle, b.targets[name].tls.value)
    {
      BuiltTargetIsGood(k, w, draw, name);
    }
  }

  lemma BuiltTargetIsGood(k: Stack, w: World, draw: nat, name: string)
    requires WellFormed(k, w) && Enabled(k, w, Pass(draw, {}))
    requires BuildFor(k, w.cluster, w.now, draw).Ok? && name in BuildFor(k, w.cluster, w.now, draw).value.targets
    ensures var b := BuildFor(k, w.cluster, w.now, draw).value;
            && GoodTarget(k, CAsAfter(k, w, draw), w.draws + {draw}, name, b.targets[name])
            && (b.targets[name].tls.value.Unexpired(w.now) ==> InBundle(b.bundle, b.targets[name].tls.value))
  {
    var b := BuildFor(k, w.cluster, w.now, draw).value;
    var cas, draws := CAsAfter(k, w, draw), w.draws + {draw};
    var signer, stored := b.signer.tls.value, Lookup(w.cluster.targets, name);
    HistoryGrows(k, w, draw);
    BuiltSignerIsGood(k, w, draw);
    assert signer in [signer] + StoredCerts(w.cluster.bundle);
    assert stored.Some? ==> GoodTarget(k, w.cas, w.draws, name, stored.value);
    RotatedTargetIsGood(k, cas, draws, name, stored, signer, b.bundle, w.now, draw);
  }

  lemma PersistKeepsGood(k: Stack, cas: set<Certificate>, draws: set<nat>, now: int, c: Cluster, b: Built,
                         written: set<ObjectRef>)
    requires GoodCluster(k, cas, draws, c) && GoodBuild(k, cas, draws, now, StoredCerts(c.bundle), b)
    ensures GoodCluster(k, cas, draws, Persist(c, b, written))
  {}

  lemma GoodClusterGrows(k: Stack, c: Cluster, cas: set<Certificate>, draws: set<nat>, cas': set<Certificate>,
                         draws': set<nat>)
    requires GoodCluster(k, cas, draws, c) && cas <= cas' && draws <= draws'
    ensures GoodCluster(k, cas', draws', c)
  {
    forall name | name in c.targets
      ensures GoodTarget(k, cas', draws', name, c.targets[name])
    {
      assert GoodTarget(k, cas, draws, name, c.targets[name]);
    }
  }

  lemma StepKeepsWellFormed(k: Stack, w: World, e: Event)
    requires WellFormed(k, w) && Enabled(k, w, e)
    ensures WellFormed(k, Step(k, w, e))
  {
    if e.Pass? {
      var cas, draws := CAsAfter(k, w, e.draw), w.draws + {e.draw};
      HistoryGrows(k, w, e.draw);
      GoodClusterGrows(k, w.cluster, w.cas, w.draws, cas, draws);
      if BuildFor(k, w.cluster, w.now, e.draw).Ok? {
        BuiltIsGood(k, w, e.draw);
        PersistKeepsGood(k, cas, draws, w.now, w.cluster, BuildFor(k, w.cluster, w.now, e.draw).value, e.written);
      }
    } else {
      assert forall ca :: ca in w.cas ==> GenuineCA(k, w.draws, w.now, ca);
    }
  }

  /** Every run from an empty cluster, with any writes failing, keeps the stored objects genuine: annotations describe
      the certificates beside them, and no target outlives the CA that issued it. */
  lemma {:induction false} RunKeepsWellFormed(k: Stack, w: World, events: seq<Event>)
    requires WellFormed(k, w) && CanRun(k, w, events)
    ensures WellFormed(k, Run(k, w, events))
    decreases |events|
  {
    if events != [] {
      StepKeepsWellFormed(k, w, events[0]);
      RunKeepsWellFormed(k, Step(k, w, events[0]), events[1..]);
    }
  }

  // ---------- trust ----------

  /** Each target certificate that is unexpired at now was issued by an unexpired CA of the stored bundle. */
  ghost predicate TrustAt(c: Cluster, now: int) {
    forall name :: name in c.targets && c.targets[name].tls.Some? && c.targets[name].tls.value.Unexpired(now) ==>
      exists ca :: ca in StoredCerts(c.bundle) && ca.key == c.targets[name].tls.value.signedBy && ca.Unexpired(now)
  }

  /** Trust that lasts: the CA found in the bundle lives at least as long as the target. */
  ghost predicate Anchored(c: Cluster, now: int) {
    forall name :: name in c.targets && c.targets[name].tls.Some? && c.targets[name].tls.value.Unexpired(now) ==>
      InBundle(StoredCerts(c.bundle), c.targets[name].tls.value)
  }

  lemma AnchoredIsTrusted(c: Cluster, now: int, later: int)
    requires Anchored(c, now) && now <= later
    ensures TrustAt(c, later) && Anchored(c, later)
  {
    forall name | name in c.targets && c.targets[name].tls.Some? && c.targets[name].tls.value.Unexpired(later)
      ensures exists ca ::
                ca in StoredCerts(c.bundle) && ca.key == c.targets[name].tls.value.signedBy && ca.Unexpired(later)
    {
      assert InBundle(StoredCerts(c.bundle), c.targets[name].tls.value);
    }
  }

  /** A stored CA that has not expired is in the rebuilt bundle. */
  lemma UnexpiredStays(signer: Certificate, stored: seq<Certificate>, now: int, cert: Certificate)
    requires InBundle(stored, cert) && cert.Unexpired(now)
    ensures InBundle(Rebuilt(signer, stored, now), cert)
  {
    var ca :| ca in stored && Signed(ca, cert);
    assert ca in [signer] + stored;
    assert ca in Rebuilt(signer, stored, now);
  }

  /** Storing the bundle keeps trust, whichever of the other writes fail. */
  lemma BundleWriteAnchors(k: Stack, cas: set<Certificate>, draws: set<nat>, now: int, c: Cluster, b: Built,
                           written: set<ObjectRef>)
    requires GoodBuild(k, cas, draws, now, StoredCerts(c.bundle), b) && BundleRef in written
    requires Anchored(c, now)
             || (c.targets.Keys <= b.targets.Keys && forall name :: name in b.targets ==> TargetRef(name) in written)
    ensures Anchored(Persist(c, b, written), now)
  {
    var c' := Persist(c, b, written);
    forall name | name in c'.targets && c'.targets[name].tls.Some? && c'.targets[name].tls.value.Unexpired(now)
      ensures InBundle(b.bundle, c'.targets[name].tls.value)
    {
      if !(name in b.targets && TargetRef(name) in written) {
        UnexpiredStays(b.signer.tls.value, StoredCerts(c.bundle), now, c.targets[name].tls.value);
      }
    }
  }

  predicate IsFull(k: Stack, e: Event) {
    e.Pass? && SignerRef in e.written && BundleRef in e.written
    && forall name :: name in k.hosts ==> TargetRef(name) in e.written
  }

  /** One pass whose writes all succeed restores trust, whatever earlier passes left behind; a pass that stores the
      bundle keeps it. */
  lemma PassAnchors(k: Stack, w: World, e: Event)
    requires WellFormed(k, w) && Enabled(k, w, e) && e.Pass? && BundleRef in e.written
    requires Anchored(w.cluster, w.now) || (IsFull(k, e) && BuildFor(k, w.cluster, w.now, e.draw).Ok?)
    ensures Anchored(Step(k, w, e).cluster, w.now)
  {
    if BuildFor(k, w.cluster, w.now, e.draw).Ok? {
      BuiltIsGood(k, w, e.draw);
      assert forall name :: name in w.cluster.targets ==> GoodTarget(k, w.cas, w.draws, name, w.cluster.targets[name]);
      BundleWriteAnchors(k, CAsAfter(k, w, e.draw), w.draws + {e.draw}, w.now, w.cluster,
                         BuildFor(k, w.cluster, w.now, e.draw).value, e.written);
    }
  }

  /** A target for which no names are required is due in every pass: an empty annotation reads as one empty name. */
  lemma NamelessIsDue(k: Stack, w: World, name: string, ca: Certificate, bundle: seq<Certificate>)
    requires WellFormed(k, w) && name in k.hosts && k.hosts[name] == {}
    ensures TargetDue(k.rotation, SelfSignedCertKey(Lookup(w.cluster.targets, name), {}), ca, bundle, w.now)
  {
    if name in w.cluster.targets {
      assert GoodTarget(k, w.cas, w.draws, name, w.cluster.targets[name]);
      HostnameRoundTrip(w.cluster.targets[name].tls.value);
      QuietExactly(w.cluster.targets[name].annotations, ca, bundle, {}, k.rotation.targetRefresh, w.now);
    }
  }

  /** Exactly when a pass fails in a well-formed world: a signer is due and there is no issuer prefix, or no names are
      required of some target. */
  lemma BuildFailsExactly(k: Stack, w: World, draw: nat)
    requires WellFormed(k, w)
    ensures BuildFor(k, w.cluster, w.now, draw).Err?
       <==> (MakesCA(k, w) && k.issuer == "") || exists name :: name in k.hosts && k.hosts[name] == {}
    ensures MakesCA(k, w) && k.issuer == "" ==> BuildFor(k, w.cluster, w.now, draw) == Err(MissingIssuer)
  {
    var signer := RotateSigner(k.rotation, k.issuer, w.cluster.signer, w.now, draw);
    if name :| name in k.hosts && k.hosts[name] == {} && signer.Ok? {
      var ca := signer.value.tls.value;
      NamelessIsDue(k, w, name, ca, Rebuilt(ca, StoredCerts(w.cluster.bundle), w.now));
      assert name in InputsFor(k, w.cluster).certificates;
    }
    hide TargetDue, Rebuilt;
  }

  /** In a well-formed world a pass can only fail for lack of an issuer or of hostnames. */
  lemma BuildSucceeds(k: Stack, w: World, draw: nat)
    requires WellFormed(k, w) && k.issuer != "" && forall name :: name in k.hosts ==> k.hosts[name] != {}
    ensures BuildFor(k, w.cluster, w.now, draw).Ok?
  {}
}
