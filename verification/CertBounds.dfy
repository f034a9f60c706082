/** Quantitative results about rotation: the fixpoint of a pass, the least lifetime of a new target, and the size of
    the CA bundle over every run. */
module CertBounds {
  import opened Wrappers
  import opened Certificates
  import opened Rotation
  import opened CertBuild
  import opened CertHandlers
  import opened CertSafety

  // ---------- rebuilding the bundle ----------

  lemma {:induction false} DedupeHead(certs: seq<Certificate>)
    requires certs != []
    ensures Dedupe(certs) != [] && Dedupe(certs)[0] == certs[0]
  {
    if |certs| > 1 { DedupeHead(certs[..|certs| - 1]); }
  }

  lemma {:induction false} DedupeDistinct(certs: seq<Certificate>)
    requires forall i, j :: 0 <= i < j < |certs| ==> certs[i] != certs[j]
    ensures Dedupe(certs) == certs
  {
    if certs != [] {
      DedupeDistinct(certs[..|certs| - 1]);
      assert certs == certs[..|certs| - 1] + [certs[|certs| - 1]];
    }
  }

  lemma DedupeStep(certs: seq<Certificate>, last: Certificate)
    ensures Dedupe(certs + [last]) == Dedupe(certs) + if last in Dedupe(certs) then [] else [last]
  {
    assert (certs + [last])[..|certs|] == certs;
  }

  /** Prepending the certificate that is already first changes nothing. */
  lemma {:induction false} DedupeRepeatedHead(certs: seq<Certificate>)
    requires certs != [] && forall i, j :: 0 <= i < j < |certs| ==> certs[i] != certs[j]
    ensures Dedupe([certs[0]] + certs) == certs
  {
    hide Dedupe;
    var front, last := certs[..|certs| - 1], certs[|certs| - 1];
    assert [certs[0]] + certs == ([certs[0]] + front) + [last];
    DedupeStep([certs[0]] + front, last);
    if front == [] {
      DedupeDistinct([last]);
      assert [certs[0]] + front == [last] == certs;
    } else {
      assert front[0] == certs[0];
      DedupeRepeatedHead(front);
      assert last !in front;
      assert certs == front + [last];
    }
  }

  lemma FilterSigner(signer: Certificate, certs: seq<Certificate>, now: int)
    ensures FilterExpired([signer] + certs, now)
            == (if signer.Unexpired(now) then [signer] else []) + FilterExpired(certs, now)
  {
    FilterExpiredAppend([signer], certs, now);
    assert [signer][..0] == [];
    assert FilterExpired([signer], now) == if signer.Unexpired(now) then [signer] else [];
  }

  /** Rebuilding a rebuilt bundle for the same signer at the same instant changes nothing. */
  lemma RebuiltIdempotent(signer: Certificate, stored: seq<Certificate>, now: int)
    ensures Rebuilt(signer, Rebuilt(signer, stored, now), now) == Rebuilt(signer, stored, now)
  {
    var once := Rebuilt(signer, stored, now);
    FilterSigner(signer, once, now);
    FilterExpiredKeeps(once, now);
    if signer.Unexpired(now) {
      FilterSigner(signer, stored, now);
      DedupeHead([signer] + FilterExpired(stored, now));
      DedupeRepeatedHead(once);
    } else {
      assert [] + once == once;
      DedupeDistinct(once);
    }
  }

  // ---------- the parts of a build ----------

  ghost predicate RotatedTargets(k: Stack, c: Cluster, now: nat, draw: nat, b: Built) {
    b.signer.tls.Some? && b.targets.Keys == k.hosts.Keys
    && forall name :: name in k.hosts ==>
         b.targets[name] == RotateTarget(k.rotation, name, SelfSignedCertKey(Lookup(c.targets, name), k.hosts[name]),
                                         b.signer.tls.value, b.bundle, now, draw)
  }

  ghost predicate BuiltFrom(k: Stack, c: Cluster, now: nat, draw: nat, b: Built) {
    && RotateSigner(k.rotation, k.issuer, c.signer, now, draw) == Ok(b.signer)
    && b.signer.tls.Some?
    && b.bundle == Rebuilt(b.signer.tls.value, StoredCerts(c.bundle), now)
    && RotatedTargets(k, c, now, draw, b)
  }

  lemma BuildParts(k: Stack, c: Cluster, now: nat, draw: nat)
    requires BuildFor(k, c, now, draw).Ok?
    ensures BuiltFrom(k, c, now, draw, BuildFor(k, c, now, draw).value)
  {}

  /** The signer a pass uses: genuine, unexpired, named, more recent than the stored one by more than the refresh
      period if it differs from it, and with a fifth of its validity ahead unless validity and refresh coincide. */
  lemma SignerFacts(k: Stack, w: World, draw: nat, s: SecretState)
    requires WellFormed(k, w) && Enabled(k, w, Pass(draw, {})) && k.rotation.caValidity >= 0
    requires RotateSigner(k.rotation, k.issuer, w.cluster.signer, w.now, draw) == Ok(s)
    ensures s.tls.Some? && s.tls.value.subject != "" && s.tls.value.Unexpired(w.now)
    ensures s.tls.value.Validity() == k.rotation.caValidity
    ensures k.rotation.caRefresh >= 0 ==> !SignerDue(k.rotation, Some(s), w.now)
    ensures k.rotation.caValidity != k.rotation.caRefresh ==> s.tls.value.notAfter - w.now >= k.rotation.caValidity / 5
    ensures w.cluster.signer.Some? && s != w.cluster.signer.value && SettledSettings(k.rotation) ==>
              s.tls.value.notBefore - w.cluster.signer.value.tls.value.notBefore > k.rotation.caRefresh
  {
    if w.cluster.signer.Some? {
      assert GoodSigner(w.cas, w.cluster.signer.value);
      assert GenuineCA(k, w.draws, w.now, w.cluster.signer.value.tls.value);
    }
    if SignerDue(k.rotation, w.cluster.signer, w.now) && k.rotation.caRefresh >= 0 {
      NewbornIsQuiet(s.annotations, None, k.rotation.caRefresh, w.now);
    }
  }

  predicate SettledSettings(r: RotationSettings) {
    r.caValidity > 0 && 0 <= r.caRefresh <= r.caValidity - r.caValidity / 5
  }

  // ---------- fixpoint ----------

  predicate NonNegative(r: RotationSettings) {
    r.caValidity >= 0 && r.caRefresh >= 0 && r.targetValidity >= 0 && r.targetRefresh >= 0
  }

  /** What one pass made of a target raises no reason in a second pass at the same instant. */
  lemma RotatedTargetNotDue(r: RotationSettings, name: string, key: SelfSignedCertKey, signer: Certificate,
                            bundle: seq<Certificate>, now: nat, draw: nat)
    requires NonNegative(r) && Representable(key.hostnames)
    requires signer.Unexpired(now) && signer in bundle && signer.subject != ""
    ensures var s := RotateTarget(r, name, key, signer, bundle, now, draw);
            !TargetDue(r, SelfSignedCertKey(Some(s), key.hostnames), signer, bundle, now)
  {
    var s := RotateTarget(r, name, key, signer, bundle, now, draw);
    if TargetDue(r, key, signer, bundle, now) {
      NewbornIsQuiet(s.annotations, Some(signer), r.targetRefresh, now);
      HostnameRoundTrip(s.tls.value);
      assert Names(bundle, signer.subject);
    }
  }

  function Stored(b: Built): Cluster {
    Cluster(Some(b.signer), Some(Certs(b.bundle)), b.targets)
  }

  lemma FullPersist(c: Cluster, b: Built, written: set<ObjectRef>)
    requires c.targets.Keys <= b.targets.Keys && Refs(b) <= written
    ensures Persist(c, b, written) == Stored(b)
  {
    assert forall name :: name in b.targets ==> TargetRef(name) in Refs(b);
    assert Persist(c, b, written).targets == b.targets;
  }

  /** Building again from what was just built. */
  lemma SecondBuild(k: Stack, b: Built, earlier: seq<Certificate>, now: nat, draw: nat)
    requires b.signer.tls.Some? && !SignerDue(k.rotation, Some(b.signer), now)
    requires b.bundle == Rebuilt(b.signer.tls.value, earlier, now)
    requires b.targets.Keys == k.hosts.Keys
    requires forall name :: name in k.hosts ==>
               !TargetDue(k.rotation, SelfSignedCertKey(Some(b.targets[name]), k.hosts[name]), b.signer.tls.value,
                          b.bundle, now)
    ensures BuildFor(k, Stored(b), now, draw) == Ok(b)
  {
    RebuiltIdempotent(b.signer.tls.value, earlier, now);
    var i := InputsFor(k, Stored(b));
    var targets := RotateTargets(k.rotation, i.certificates, b.signer.tls.value, b.bundle, now, draw);
    assert targets.Ok? && targets.value == b.targets;
  }

  /** After a full pass, a second pass at the same instant builds exactly what is stored, so storing it changes
      nothing. */
  lemma RotationFixpoint(k: Stack, w: World, e: Event, draw: nat)
    requires WellFormed(k, w) && Enabled(k, w, e) && IsFull(k, e)
    requires NonNegative(k.rotation) && k.issuer != ""
    requires forall name :: name in k.hosts ==> Representable(k.hosts[name])
    ensures BuildFor(k, w.cluster, w.now, e.draw).Ok?
    ensures Step(k, w, e).cluster == Stored(BuildFor(k, w.cluster, w.now, e.draw).value)
    ensures BuildFor(k, Step(k, w, e).cluster, w.now, draw) == BuildFor(k, w.cluster, w.now, e.draw)
  {
    BuildSucceeds(k, w, e.draw);
    BuildParts(k, w.cluster, w.now, e.draw);
    var b := BuildFor(k, w.cluster, w.now, e.draw).value;
    assert w.cluster.targets.Keys <= k.hosts.Keys by {
      assert forall name :: name in w.cluster.targets ==> GoodTarget(k, w.cas, w.draws, name, w.cluster.targets[name]);
    }
    FullPersist(w.cluster, b, e.written);
    SignerFacts(k, w, e.draw, b.signer);
    RebuildAfter(k, w.cluster, b, StoredCerts(w.cluster.bundle), w.now, e.draw, draw);
  }

  lemma RebuildAfter(k: Stack, c: Cluster, b: Built, earlier: seq<Certificate>, now: nat, draw: nat, draw': nat)
    requires NonNegative(k.rotation) && forall name :: name in k.hosts ==> Representable(k.hosts[name])
    requires RotatedTargets(k, c, now, draw, b) && b.bundle == Rebuilt(b.signer.tls.value, earlier, now)
    requires !SignerDue(k.rotation, Some(b.signer), now) && b.signer.tls.value.Unexpired(now)
    requires b.signer.tls.value.subject != ""
    ensures BuildFor(k, Stored(b), now, draw') == Ok(b)
  {
    var signer := b.signer.tls.value;
    assert signer in [signer] + earlier && signer in b.bundle;
    forall name | name in k.hosts
      ensures !TargetDue(k.rotation, SelfSignedCertKey(Some(b.targets[name]), k.hosts[name]), signer, b.bundle, now)
    {
      RotatedTargetNotDue(k.rotation, name, SelfSignedCertKey(Lookup(c.targets, name), k.hosts[name]), signer, b.bundle,
                          now, draw);
    }
    SecondBuild(k, b, earlier, now, draw');
  }

  // ---------- least lifetime of a new target ----------

  predicate QuietSigner(ca: Certificate, refresh: int, now: int) {
    NeedNewCertificate(Annotations(At(ca.notAfter), At(ca.notBefore), ca.issuer, ""), now, refresh, None).None?
  }

  /** Every signer that is kept leaves a new target at least the smaller of the configured validity and a fifth of the
      signer's own validity, exactly when the signer's validity is not the refresh setting (or that bound is
      trivial). */
  lemma MinimumLifetime(ca: Certificate, refresh: int, targetValidity: int)
    requires ca.notBefore <= ca.notAfter
    ensures (forall now :: QuietSigner(ca, refresh, now) ==>
               ClippedValidity(targetValidity, ca, now) >= Least(targetValidity, ca.Validity() / 5))
       <==> ca.Validity() != refresh || Least(targetValidity, ca.Validity() / 5) <= 0
  {
    if ca.Validity() == refresh && Least(targetValidity, ca.Validity() / 5) > 0 {
      assert QuietSigner(ca, refresh, ca.notAfter) && ClippedValidity(targetValidity, ca, ca.notAfter) == 0;
    }
  }

  /** The bound for the targets a pass really issues. */
  lemma IssuedTargetLifetime(k: Stack, w: World, draw: nat, b: Built, name: string)
    requires WellFormed(k, w) && Enabled(k, w, Pass(draw, {})) && BuiltFrom(k, w.cluster, w.now, draw, b)
    requires k.rotation.caValidity >= 0 && k.rotation.caValidity != k.rotation.caRefresh
    requires name in k.hosts && b.targets[name].tls.Some? && b.targets[name].tls.value.key == TargetKey(draw, name)
    ensures b.targets[name].tls.value.Validity() >= Least(k.rotation.targetValidity, k.rotation.caValidity / 5)
  {
    SignerFacts(k, w, draw, b.signer);
    if name in w.cluster.targets {
      assert GoodTarget(k, w.cas, w.draws, name, w.cluster.targets[name]);
    }
  }

  // ---------- greatest lifetime ----------

  /** A target that a pass issues starts at this instant, and ends at the earlier of the configured validity and the end
      of its signer. */
  lemma IssuedTargetEnds(k: Stack, w: World, draw: nat, b: Built, name: string)
    requires WellFormed(k, w) && Enabled(k, w, Pass(draw, {})) && BuiltFrom(k, w.cluster, w.now, draw, b)
    requires name in k.hosts && b.targets[name].tls.Some? && b.targets[name].tls.value.key == TargetKey(draw, name)
    ensures var cert, ca := b.targets[name].tls.value, b.signer.tls.value;
            var configured := w.now + k.rotation.targetValidity;
            && cert.notBefore == w.now && cert.signedBy == ca.key
            && cert.notAfter == if configured <= ca.notAfter then configured else ca.notAfter
  {
    if name in w.cluster.targets {
      assert GoodTarget(k, w.cas, w.draws, name, w.cluster.targets[name]);
    }
  }

  predicate WithinValidity(k: Stack, c: Cluster) {
    forall name :: name in c.targets && c.targets[name].tls.Some? ==>
      c.targets[name].tls.value.Validity() <= k.rotation.targetValidity
  }

  lemma StepWithinValidity(k: Stack, w: World, e: Event)
    requires WellFormed(k, w) && Enabled(k, w, e) && WithinValidity(k, w.cluster)
    ensures WithinValidity(k, Step(k, w, e).cluster)
  {
    if e.Pass? && BuildFor(k, w.cluster, w.now, e.draw).Ok? {
      var b := BuildFor(k, w.cluster, w.now, e.draw).value;
      BuildParts(k, w.cluster, w.now, e.draw);
      forall name | name in b.targets && b.targets[name].tls.Some?
        ensures b.targets[name].tls.value.Validity() <= k.rotation.targetValidity
      {
        BuiltWithinValidity(k, w, e.draw, b, name);
      }
      hide BuildFor;
    }
  }

  lemma BuiltWithinValidity(k: Stack, w: World, draw: nat, b: Built, name: string)
    requires BuiltFrom(k, w.cluster, w.now, draw, b) && WithinValidity(k, w.cluster)
    requires name in b.targets && b.targets[name].tls.Some?
    ensures b.targets[name].tls.value.Validity() <= k.rotation.targetValidity
  {}

  lemma {:induction false} RunWithinValidity(k: Stack, w: World, events: seq<Event>)
    requires WellFormed(k, w) && CanRun(k, w, events) && WithinValidity(k, w.cluster)
    ensures WithinValidity(k, Run(k, w, events).cluster)
    decreases |events|
  {
    if events != [] {
      StepWithinValidity(k, w, events[0]);
      StepKeepsWellFormed(k, w, events[0]);
      RunWithinValidity(k, Step(k, w, events[0]), events[1..]);
    }
  }

  /** Over every run, with any writes failing: no stored target is valid for longer than configured, and every CA ever
      made is valid for exactly as long as configured. */
  lemma GreatestLifetimes(k: Stack, start: nat, events: seq<Event>)
    requires CanRun(k, Init(start), events)
    ensures var w := Run(k, Init(start), events);
            && (forall name :: name in w.cluster.targets ==>
                  w.cluster.targets[name].tls.Some?
                  && w.cluster.targets[name].tls.value.Validity() <= k.rotation.targetValidity)
            && (forall ca :: ca in w.cas ==> ca.notAfter == ca.notBefore + k.rotation.caValidity)
            && (w.cluster.signer.Some? ==>
                w.cluster.signer.value.tls.Some? && w.cluster.signer.value.tls.value in w.cas)
  {
    var w := Run(k, Init(start), events);
    RunKeepsWellFormed(k, Init(start), events);
    RunWithinValidity(k, Init(start), events);
    forall name | name in w.cluster.targets ensures w.cluster.targets[name].tls.Some? {
      assert GoodTarget(k, w.cas, w.draws, name, w.cluster.targets[name]);
    }
    forall ca | ca in w.cas ensures ca.notAfter == ca.notBefore + k.rotation.caValidity {
      assert GenuineCA(k, w.draws, w.now, ca);
    }
    if w.cluster.signer.Some? { assert GoodSigner(w.cas, w.cluster.signer.value); }
  }

  // ---------- size of the bundle ----------

  /** Newest first, each made more than gap after the next. */
  predicate Spaced(certs: seq<Certificate>, gap: int) {
    forall i, j :: 0 <= i < j < |certs| ==> certs[i].notBefore - certs[j].notBefore > gap
  }

  lemma {:induction false} SpacedFilter(certs: seq<Certificate>, gap: int, now: int)
    requires Spaced(certs, gap)
    ensures Spaced(FilterExpired(certs, now), gap)
  {
    if certs != [] {
      var front := certs[..|certs| - 1];
      SpacedFilter(front, gap, now);
      var f := FilterExpired(front, now);
      forall i | 0 <= i < |f| ensures f[i].notBefore - certs[|certs| - 1].notBefore > gap {
        assert f[i] in f && f[i] in front;
      }
    }
  }

  /** A spaced list spans more than gap per step. */
  lemma {:induction false} SpacedSpan(certs: seq<Certificate>, gap: int)
    requires Spaced(certs, gap) && certs != []
    ensures certs[0].notBefore - certs[|certs| - 1].notBefore >= (|certs| - 1) * (gap + 1)
  {
    if |certs| > 1 { SpacedSpan(certs[..|certs| - 1], gap); }
  }

  /** ca is the newest certificate of the list, or newer than all of it by more than gap. */
  predicate Heads(ca: Certificate, certs: seq<Certificate>, gap: int) {
    certs != [] ==> certs[0] == ca || ca.notBefore - certs[0].notBefore > gap
  }

  lemma HeadsFiltered(ca: Certificate, certs: seq<Certificate>, gap: int, now: int)
    requires Spaced(certs, gap) && Heads(ca, certs, gap) && gap >= 0 && ca.Unexpired(now)
    ensures Heads(ca, FilterExpired(certs, now), gap)
  {
    var f := FilterExpired(certs, now);
    if f != [] {
      assert f[0] in f && f[0] in certs;
      if certs[0] == ca {
        assert certs == [ca] + certs[1..];
        FilterSigner(ca, certs[1..], now);
      }
    }
  }

  lemma RebuiltSpaced(ca: Certificate, stored: seq<Certificate>, gap: int, now: int)
    requires Spaced(stored, gap) && Heads(ca, stored, gap) && gap >= 0 && ca.Unexpired(now)
    ensures Spaced(Rebuilt(ca, stored, now), gap)
    ensures Rebuilt(ca, stored, now) != [] && Rebuilt(ca, stored, now)[0] == ca
  {
    var f := FilterExpired(stored, now);
    FilterSigner(ca, stored, now);
    SpacedFilter(stored, gap, now);
    HeadsFiltered(ca, stored, gap, now);
    hide FilterExpired, Dedupe;
    if f != [] && f[0] == ca {
      DedupeRepeatedHead(f);
    } else {
      assert Spaced([ca] + f, gap);
      DedupeDistinct([ca] + f);
    }
  }

  /** Invariant: the bundle is spaced by the CA refresh period, headed by the stored signer, and short. */
  ghost predicate ShortBundle(k: Stack, c: Cluster) {
    var gap, certs := k.rotation.caRefresh, StoredCerts(c.bundle);
    && Spaced(certs, gap)
    && (certs != [] ==> c.signer.Some? && c.signer.value.tls.Some? && Heads(c.signer.value.tls.value, certs, gap))
    && (certs != [] ==> (|certs| - 1) * (gap + 1) <= k.rotation.caValidity)
  }

  /** A pass never stores a bundle without storing the signer it was built for. */
  predicate SignerNeverLost(e: Event) {
    e.Pass? && BundleRef in e.written ==> SignerRef in e.written
  }

  predicate SignersKept(events: seq<Event>) {
    forall i :: 0 <= i < |events| ==> SignerNeverLost(events[i])
  }

  /** The signer of the next pass heads the stored bundle. */
  lemma NewSignerHeads(k: Stack, w: World, draw: nat, s: SecretState)
    requires WellFormed(k, w) && Enabled(k, w, Pass(draw, {})) && SettledSettings(k.rotation)
    requires ShortBundle(k, w.cluster)
    requires RotateSigner(k.rotation, k.issuer, w.cluster.signer, w.now, draw) == Ok(s)
    ensures s.tls.Some? && Heads(s.tls.value, StoredCerts(w.cluster.bundle), k.rotation.caRefresh)
  {
    SignerFacts(k, w, draw, s);
  }

  lemma RebuiltShort(k: Stack, w: World, draw: nat, signer: Certificate, stored: seq<Certificate>)
    requires WellFormed(k, w) && Enabled(k, w, Pass(draw, {})) && signer in CAsAfter(k, w, draw)
    requires forall ca :: ca in stored ==> ca in w.cas
    requires Spaced(stored, k.rotation.caRefresh) && Heads(signer, stored, k.rotation.caRefresh)
    requires k.rotation.caRefresh >= 0 && signer.Unexpired(w.now)
    ensures var bundle := Rebuilt(signer, stored, w.now);
            Spaced(bundle, k.rotation.caRefresh) && bundle != [] && bundle[0] == signer
            && (|bundle| - 1) * (k.rotation.caRefresh + 1) <= k.rotation.caValidity
  {
    hide WellFormed, Enabled, FilterExpired, Dedupe;
    RebuiltSpaced(signer, stored, k.rotation.caRefresh, w.now);
    SpacedSpan(Rebuilt(signer, stored, w.now), k.rotation.caRefresh);
    UnexpiredSpan(k, w, draw, Rebuilt(signer, stored, w.now), signer, stored);
  }

  lemma SignerInHistory(k: Stack, w: World, draw: nat, s: SecretState)
    requires WellFormed(k, w) && RotateSigner(k.rotation, k.issuer, w.cluster.signer, w.now, draw) == Ok(s)
    requires s.tls.Some?
    ensures s.tls.value in CAsAfter(k, w, draw) && forall ca :: ca in StoredCerts(w.cluster.bundle) ==> ca in w.cas
  {
    if w.cluster.signer.Some? { assert GoodSigner(w.cas, w.cluster.signer.value); }
  }

  lemma BuiltBundleShort(k: Stack, w: World, draw: nat, b: Built)
    requires WellFormed(k, w) && Enabled(k, w, Pass(draw, {})) && SettledSettings(k.rotation)
    requires ShortBundle(k, w.cluster)
    requires RotateSigner(k.rotation, k.issuer, w.cluster.signer, w.now, draw) == Ok(b.signer) && b.signer.tls.Some?
    requires b.bundle == Rebuilt(b.signer.tls.value, StoredCerts(w.cluster.bundle), w.now)
    ensures ShortBundle(k, Stored(b))
    ensures Heads(b.signer.tls.value, StoredCerts(w.cluster.bundle), k.rotation.caRefresh)
  {
    hide RotateSigner, FilterExpired, Dedupe, WellFormed, Enabled;
    SignerInHistory(k, w, draw, b.signer);
    SignerFacts(k, w, draw, b.signer);
    NewSignerHeads(k, w, draw, b.signer);
    RebuiltShort(k, w, draw, b.signer.tls.value, StoredCerts(w.cluster.bundle));
  }

  /** Unexpired CAs of one stack were all made within one validity period. */
  lemma UnexpiredSpan(k: Stack, w: World, draw: nat, bundle: seq<Certificate>, signer: Certificate,
                      stored: seq<Certificate>)
    requires WellFormed(k, w) && Enabled(k, w, Pass(draw, {})) && signer in CAsAfter(k, w, draw)
    requires forall ca :: ca in stored ==> ca in w.cas
    requires bundle == Rebuilt(signer, stored, w.now) && bundle != []
    ensures bundle[0].notBefore - bundle[|bundle| - 1].notBefore <= k.rotation.caValidity
  {
    var first, last := bundle[0], bundle[|bundle| - 1];
    HistoryGrows(k, w, draw);
    assert first in bundle && last in bundle;
    assert first in [signer] + stored && last in [signer] + stored && last.Unexpired(w.now);
    assert GenuineCA(k, w.draws + {draw}, w.now, first) && GenuineCA(k, w.draws + {draw}, w.now, last);
  }

  lemma PersistKeepsShort(k: Stack, c: Cluster, b: Built, written: set<ObjectRef>)
    requires ShortBundle(k, c) && ShortBundle(k, Stored(b)) && b.signer.tls.Some?
    requires Heads(b.signer.tls.value, StoredCerts(c.bundle), k.rotation.caRefresh)
    requires BundleRef in written ==> SignerRef in written
    ensures ShortBundle(k, Persist(c, b, written))
  {}

  lemma StepKeepsShort(k: Stack, w: World, e: Event)
    requires WellFormed(k, w) && Enabled(k, w, e) && SettledSettings(k.rotation)
    requires ShortBundle(k, w.cluster) && SignerNeverLost(e)
    ensures ShortBundle(k, Step(k, w, e).cluster)
  {
    if e.Pass? && BuildFor(k, w.cluster, w.now, e.draw).Ok? {
      var b := BuildFor(k, w.cluster, w.now, e.draw).value;
      BuildParts(k, w.cluster, w.now, e.draw);
      BuiltBundleShort(k, w, e.draw, b);
      PersistKeepsShort(k, w.cluster, b, e.written);
    }
  }

  lemma {:induction false} RunKeepsShort(k: Stack, w: World, events: seq<Event>)
    requires WellFormed(k, w) && CanRun(k, w, events) && SettledSettings(k.rotation) && ShortBundle(k, w.cluster)
    requires SignersKept(events)
    ensures ShortBundle(k, Run(k, w, events).cluster)
    decreases |events|
  {
    if events != [] {
      StepKeepsShort(k, w, events[0]);
      StepKeepsWellFormed(k, w, events[0]);
      RunKeepsShort(k, Step(k, w, events[0]), events[1..]);
    }
  }

  /** At every moment of every run in which the signer is never lost, the bundle holds fewer than validity / refresh
      CAs besides the current one. */
  lemma BundleBound(k: Stack, start: nat, events: seq<Event>)
    requires CanRun(k, Init(start), events) && SettledSettings(k.rotation)
    requires SignersKept(events)
    ensures var stored := StoredCerts(Run(k, Init(start), events).cluster.bundle);
            (|stored| - 1) * k.rotation.caRefresh < k.rotation.caValidity
  {
    RunKeepsShort(k, Init(start), events);
    var n := |StoredCerts(Run(k, Init(start), events).cluster.bundle)|;
    if n > 1 {
      assert (n - 1) * (k.rotation.caRefresh + 1) == (n - 1) * k.rotation.caRefresh + (n - 1);
    }
  }
}
