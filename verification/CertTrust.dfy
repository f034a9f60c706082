/** Trust under lost writes: exactly which passes keep it, and therefore which runs. */
module CertTrust {
  import opened Wrappers
  import opened Certificates
  import opened Rotation
  import opened CertBuild
  import opened CertHandlers
  import opened CertSafety
  import opened CertBounds

  /** The pass makes a new certificate for this target. */
  ghost predicate Reissues(k: Stack, w: World, b: Built, name: string) {
    b.signer.tls.Some? && name in k.hosts
    && TargetDue(k.rotation, SelfSignedCertKey(Lookup(w.cluster.targets, name), k.hosts[name]), b.signer.tls.value,
                 b.bundle, w.now)
  }

  /** The bundle is stored, or already holds the signer, or no new target is stored. */
  ghost predicate StoresSafely(k: Stack, w: World, b: Built, written: set<ObjectRef>) {
    || BundleRef in written
    || (b.signer.tls.Some? && b.signer.tls.value in StoredCerts(w.cluster.bundle))
    || forall name :: Reissues(k, w, b, name) ==> TargetRef(name) !in written
  }

  ghost predicate PassSafe(k: Stack, w: World, e: Event) {
    e.Pass? ==>
      var built := BuildFor(k, w.cluster, w.now, e.draw);
      built.Ok? ==> StoresSafely(k, w, built.value, e.written)
  }

  ghost predicate RunSafe(k: Stack, w: World, events: seq<Event>)
    decreases |events|
  {
    events == [] || (PassSafe(k, w, events[0]) && RunSafe(k, Step(k, w, events[0]), events[1..]))
  }

  // ---------- one pass ----------

  /** A target is issued by the signer of the pass, or is the stored one. */
  lemma TargetCases(k: Stack, w: World, draw: nat, b: Built, name: string)
    requires WellFormed(k, w) && BuiltFrom(k, w.cluster, w.now, draw, b) && name in k.hosts
    ensures Reissues(k, w, b, name) ==>
              b.targets[name].tls.Some? && Signed(b.signer.tls.value, b.targets[name].tls.value)
    ensures !Reissues(k, w, b, name) ==> name in w.cluster.targets && b.targets[name] == w.cluster.targets[name]
  {}

  lemma SafelyStored(c: Cluster, b: Built, written: set<ObjectRef>, now: int)
    requires BundleRef !in written && Anchored(c, now)
    requires forall name :: name in b.targets && TargetRef(name) in written ==>
               || (name in c.targets && b.targets[name] == c.targets[name])
               || (b.targets[name].tls.Some? && InBundle(StoredCerts(c.bundle), b.targets[name].tls.value))
    ensures Anchored(Persist(c, b, written), now)
  {}

  lemma SafePassAnchors(k: Stack, w: World, e: Event)
    requires WellFormed(k, w) && Enabled(k, w, e) && Anchored(w.cluster, w.now) && PassSafe(k, w, e) && e.Pass?
    ensures Anchored(Step(k, w, e).cluster, w.now)
  {
    if BuildFor(k, w.cluster, w.now, e.draw).Ok? && BundleRef !in e.written {
      var b := BuildFor(k, w.cluster, w.now, e.draw).value;
      BuildParts(k, w.cluster, w.now, e.draw);
      forall name | name in b.targets && TargetRef(name) in e.written
        ensures || (name in w.cluster.targets && b.targets[name] == w.cluster.targets[name])
                || (b.targets[name].tls.Some? && InBundle(StoredCerts(w.cluster.bundle), b.targets[name].tls.value))
      {
        TargetCases(k, w, e.draw, b, name);
      }
      SafelyStored(w.cluster, b, e.written, w.now);
    } else if BundleRef in e.written {
      PassAnchors(k, w, e);
    }
  }

  /** A new target with settings that are not negative is not born expired. */
  lemma ReissuedIsUnexpired(k: Stack, w: World, draw: nat, b: Built, name: string)
    requires WellFormed(k, w) && Enabled(k, w, Pass(draw, {})) && BuiltFrom(k, w.cluster, w.now, draw, b)
    requires NonNegative(k.rotation) && Reissues(k, w, b, name)
    ensures b.targets[name].tls.Some? && b.targets[name].tls.value.Unexpired(w.now)
  {
    SignerFacts(k, w, draw, b.signer);
  }

  lemma SignerIsOneOf(k: Stack, w: World, draw: nat, b: Built, ca: Certificate)
    requires WellFormed(k, w) && Enabled(k, w, Pass(draw, {})) && BuiltFrom(k, w.cluster, w.now, draw, b)
    requires ca in StoredCerts(w.cluster.bundle) && ca.key == b.signer.tls.value.key
    ensures ca == b.signer.tls.value
  {
    HistoryGrows(k, w, draw);
    SignerInHistory(k, w, draw, b.signer);
  }

  lemma UnsafePassBreaks(k: Stack, w: World, e: Event)
    requires WellFormed(k, w) && Enabled(k, w, e) && NonNegative(k.rotation) && !PassSafe(k, w, e)
    ensures !TrustAt(Step(k, w, e).cluster, w.now)
  {
    var b := BuildFor(k, w.cluster, w.now, e.draw).value;
    BuildParts(k, w.cluster, w.now, e.draw);
    var name :| Reissues(k, w, b, name) && TargetRef(name) in e.written;
    TargetCases(k, w, e.draw, b, name);
    ReissuedIsUnexpired(k, w, e.draw, b, name);
    StoredWithoutBundle(w.cluster, b, e.written, name);
    forall ca | ca in StoredCerts(w.cluster.bundle)
      ensures ca.key != b.signer.tls.value.key
    {
      if ca.key == b.signer.tls.value.key { SignerIsOneOf(k, w, e.draw, b, ca); }
    }
    var c := Persist(w.cluster, b, e.written);
    assert Step(k, w, e).cluster == c;
    hide BuildFor, BuildAll, Persist;
    Untrusted(c, w.now, name);
  }

  lemma StoredWithoutBundle(c: Cluster, b: Built, written: set<ObjectRef>, name: string)
    requires name in b.targets && TargetRef(name) in written && BundleRef !in written
    ensures var c' := Persist(c, b, written);
            name in c'.targets && c'.targets[name] == b.targets[name] && c'.bundle == c.bundle
  {}

  lemma Untrusted(c: Cluster, now: int, name: string)
    requires name in c.targets && c.targets[name].tls.Some? && c.targets[name].tls.value.Unexpired(now)
    requires forall ca :: ca in StoredCerts(c.bundle) ==> ca.key != c.targets[name].tls.value.signedBy
    ensures !TrustAt(c, now)
  {}

  /** Exactly which passes keep trust: those that store the bundle, or whose signer the stored bundle already holds, or
      that store no new target. */
  lemma TrustAfterPass(k: Stack, w: World, e: Event)
    requires WellFormed(k, w) && Anchored(w.cluster, w.now) && Enabled(k, w, e) && e.Pass? && NonNegative(k.rotation)
    ensures TrustAt(Step(k, w, e).cluster, w.now) <==> PassSafe(k, w, e)
    ensures Anchored(Step(k, w, e).cluster, w.now) <==> PassSafe(k, w, e)
  {
    if PassSafe(k, w, e) {
      SafePassAnchors(k, w, e);
      AnchoredIsTrusted(Step(k, w, e).cluster, w.now, w.now);
    } else {
      UnsafePassBreaks(k, w, e);
      if Anchored(Step(k, w, e).cluster, w.now) { AnchoredIsTrusted(Step(k, w, e).cluster, w.now, w.now); }
    }
  }

  // ---------- runs ----------

  /** Trust at the end of every event of the run. */
  ghost predicate TrustedThroughout(k: Stack, w: World, events: seq<Event>)
    decreases |events|
  {
    TrustAt(w.cluster, w.now) && (events != [] ==> TrustedThroughout(k, Step(k, w, events[0]), events[1..]))
  }

  lemma SafeStepAnchors(k: Stack, w: World, e: Event)
    requires WellFormed(k, w) && Enabled(k, w, e) && Anchored(w.cluster, w.now) && PassSafe(k, w, e)
    ensures Anchored(Step(k, w, e).cluster, Step(k, w, e).now)
  {
    if e.Pass? { SafePassAnchors(k, w, e); } else { AnchoredIsTrusted(w.cluster, w.now, w.now + e.elapsed); }
  }

  lemma {:induction false} SafeRunTrusted(k: Stack, w: World, events: seq<Event>)
    requires WellFormed(k, w) && CanRun(k, w, events) && Anchored(w.cluster, w.now) && RunSafe(k, w, events)
    ensures TrustedThroughout(k, w, events)
    ensures Anchored(Run(k, w, events).cluster, Run(k, w, events).now)
    decreases |events|
  {
    AnchoredIsTrusted(w.cluster, w.now, w.now);
    if events != [] {
      StepKeepsWellFormed(k, w, events[0]);
      SafeStepAnchors(k, w, events[0]);
      SafeRunTrusted(k, Step(k, w, events[0]), events[1..]);
    }
  }

  lemma {:induction false} TrustedRunSafe(k: Stack, w: World, events: seq<Event>)
    requires WellFormed(k, w) && CanRun(k, w, events) && Anchored(w.cluster, w.now) && NonNegative(k.rotation)
    requires TrustedThroughout(k, w, events)
    ensures RunSafe(k, w, events)
    decreases |events|
  {
    if events != [] {
      var w' := Step(k, w, events[0]);
      assert TrustAt(w'.cluster, w'.now);
      if events[0].Pass? { TrustAfterPass(k, w, events[0]); }
      StepKeepsWellFormed(k, w, events[0]);
      SafeStepAnchors(k, w, events[0]);
      TrustedRunSafe(k, w', events[1..]);
    }
  }

  /** Trust continuity: in every run from an empty cluster, whatever writes fail, each unexpired target was at every
      moment issued by an unexpired CA of the stored bundle exactly if every pass of the run stored safely. */
  lemma TrustContinuity(k: Stack, start: nat, events: seq<Event>)
    requires CanRun(k, Init(start), events) && NonNegative(k.rotation)
    ensures TrustedThroughout(k, Init(start), events) <==> RunSafe(k, Init(start), events)
  {
    if RunSafe(k, Init(start), events) { SafeRunTrusted(k, Init(start), events); }
    if TrustedThroughout(k, Init(start), events) { TrustedRunSafe(k, Init(start), events); }
  }

  /** In every pass the bundle was stored. */
  predicate BundleNeverFails(events: seq<Event>) {
    forall i :: 0 <= i < |events| && events[i].Pass? ==> BundleRef in events[i].written
  }

  lemma {:induction false} StoredBundlesAreSafe(k: Stack, w: World, events: seq<Event>)
    requires BundleNeverFails(events)
    ensures RunSafe(k, w, events)
    decreases |events|
  {
    if events != [] {
      hide BuildFor, Step;
      StoredBundlesAreSafe(k, Step(k, w, events[0]), events[1..]);
    }
  }

  /** In particular trust lasts throughout every run in which bundle writes go through, whatever other writes fail and
      whatever the settings are. */
  lemma StoredBundlesKeepTrust(k: Stack, start: nat, events: seq<Event>)
    requires CanRun(k, Init(start), events) && BundleNeverFails(events)
    ensures TrustedThroughout(k, Init(start), events)
  {
    StoredBundlesAreSafe(k, Init(start), events);
    SafeRunTrusted(k, Init(start), events);
  }

  lemma {:induction false} RunConcat(k: Stack, w: World, a: seq<Event>, b: seq<Event>)
    ensures Run(k, w, a + b) == Run(k, Run(k, w, a), b)
    ensures CanRun(k, w, a + b) <==> CanRun(k, w, a) && CanRun(k, Run(k, w, a), b)
    decreases |a|
  {
    if a == [] {
      assert a + b == b;
    } else {
      assert (a + b)[1..] == a[1..] + b;
      RunConcat(k, Step(k, w, a[0]), a[1..], b);
    }
  }

  /** Recovery: after any run at all, with any subset of any pass's objects stored, one pass that builds and stores
      everything restores trust, and it then lasts for as long as the passes store safely. */
  lemma Recovery(k: Stack, start: nat, broken: seq<Event>, pass: Event, after: seq<Event>)
    requires CanRun(k, Init(start), broken + [pass] + after) && IsFull(k, pass)
    requires var w := Run(k, Init(start), broken);
             BuildFor(k, w.cluster, w.now, pass.draw).Ok? && RunSafe(k, Step(k, w, pass), after)
    ensures TrustedThroughout(k, Step(k, Run(k, Init(start), broken), pass), after)
    ensures var w := Run(k, Init(start), broken + [pass] + after); TrustAt(w.cluster, w.now)
  {
    assert broken + [pass] + after == broken + ([pass] + after);
    RunConcat(k, Init(start), broken, [pass] + after);
    var w := Run(k, Init(start), broken);
    RunKeepsWellFormed(k, Init(start), broken);
    assert ([pass] + after)[1..] == after;
    StepKeepsWellFormed(k, w, pass);
    PassAnchors(k, w, pass);
    SafeRunTrusted(k, Step(k, w, pass), after);
    var end := Run(k, Step(k, w, pass), after);
    AnchoredIsTrusted(end.cluster, end.now, end.now);
  }

  /** Without the bundle write trust does break: for every stack that can be built, by a first pass that stores some
      target but not the bundle. */
  lemma LostBundleBreaksTrust(k: Stack, start: nat, e: Event, name: string)
    requires NonNegative(k.rotation) && k.issuer != "" && forall n :: n in k.hosts ==> k.hosts[n] != {}
    requires e.Pass? && name in k.hosts && TargetRef(name) in e.written && BundleRef !in e.written
    ensures CanRun(k, Init(start), [e]) && !TrustAt(Run(k, Init(start), [e]).cluster, Run(k, Init(start), [e]).now)
  {
    var w := Init(start);
    assert [e][1..] == [];
    assert WellFormed(k, w) && Enabled(k, w, e) && Run(k, w, [e]) == Step(k, w, e);
    BuildSucceeds(k, w, e.draw);
    BuildParts(k, w.cluster, w.now, e.draw);
    var b := BuildFor(k, w.cluster, w.now, e.draw).value;
    MissingIsReissued(k, w, e.draw, b, name);
    hide BuildFor, Reissues;
    assert !StoresSafely(k, w, b, e.written);
    UnsafePassBreaks(k, w, e);
  }

  lemma MissingIsReissued(k: Stack, w: World, draw: nat, b: Built, name: string)
    requires BuiltFrom(k, w.cluster, w.now, draw, b) && name in k.hosts && name !in w.cluster.targets
    ensures Reissues(k, w, b, name)
  {}
}
