/** The polling controller (internal/controller/tempo/certrotation_controller.go): its check interval never misses the
    renewal window, and the closed loop of checks and passes never leaves a target without a valid, trusted
    certificate. */
module CertPolling {
  import opened Wrappers
  import opened Certificates
  import opened Rotation
  import opened CertBuild
  import opened CertHandlers
  import opened CertSafety
  import opened CertBounds
  import opened CertTrust

  function ExpiryRetryAfter(certRefresh: int): int {
    if certRefresh > 24 * HOUR then 12 * HOUR else TruncDiv(certRefresh, 4)
  }

  // ---------- the renewal window ----------

  /** Check times, each after the one before by at most gap. */
  ghost predicate Schedule(times: seq<int>, gap: int) {
    forall i :: 0 <= i < |times| - 1 ==> times[i] < times[i + 1] <= times[i] + gap
  }

  /** The schedule starts no later than the instant and goes on past it. */
  predicate Covers(times: seq<int>, instant: int) {
    times != [] && times[0] <= instant < times[|times| - 1]
  }

  predicate Reports(notBefore: int, notAfter: int, refresh: int, signer: Option<Certificate>, now: int) {
    NeedNewCertificate(Annotations(At(notAfter), At(notBefore), "", ""), now, refresh, signer).Some?
  }

  /** Some check falls after the 80% point and not after expiry, and reports a reason. */
  ghost predicate Renewed(times: seq<int>, notBefore: int, notAfter: int, refresh: int, signer: Option<Certificate>) {
    exists i :: 0 <= i < |times| && LatestTime(notBefore, notAfter) < times[i] <= notAfter
                && Reports(notBefore, notAfter, refresh, signer, times[i])
  }

  lemma FirstCheckAfter(times: seq<int>, gap: int, instant: int) returns (i: nat)
    requires Schedule(times, gap) && Covers(times, instant)
    ensures 0 < i < |times| && instant < times[i] <= instant + gap
  {
    i := 1;
    while times[i] <= instant
      invariant 0 < i < |times| && times[i - 1] <= instant
      decreases |times| - i
    {
      i := i + 1;
    }
  }

  /** Every schedule with gaps of at most gap catches the certificate in its last fifth exactly when the gap is no
      longer than that fifth and the certificate's validity is not the refresh setting. */
  lemma RenewalWindow(notBefore: int, notAfter: int, refresh: int, signer: Option<Certificate>, gap: int)
    requires notBefore < notAfter && gap >= 1
    ensures (forall times ::
               Schedule(times, gap) && Covers(times, LatestTime(notBefore, notAfter)) ==>
                 Renewed(times, notBefore, notAfter, refresh, signer))
       <==> gap <= (notAfter - notBefore) / 5 && notAfter - notBefore != refresh
  {
    var latest := LatestTime(notBefore, notAfter);
    if gap <= (notAfter - notBefore) / 5 && notAfter - notBefore != refresh {
      forall times | Schedule(times, gap) && Covers(times, latest)
        ensures Renewed(times, notBefore, notAfter, refresh, signer)
      {
        var i := FirstCheckAfter(times, gap, latest);
        assert Reports(notBefore, notAfter, refresh, signer, times[i]);
      }
    } else {
      var times := [latest, latest + gap];
      assert Schedule(times, gap) && Covers(times, latest);
      assert !Renewed(times, notBefore, notAfter, refresh, signer);
    }
  }

  /** The interval the controller chooses catches every certificate, for refresh settings of at most four fifths of the
      validity, when the refresh setting is at most a day or the validity at least sixty hours: exactly unless the
      refresh setting is at most a day and the longest allowed for a validity that leaves remainder 4 when divided by
      5. */
  lemma NoMissedRenewal(notBefore: int, notAfter: int, refresh: int, signer: Option<Certificate>)
    requires notBefore < notAfter && 4 <= refresh <= (notAfter - notBefore) - (notAfter - notBefore) / 5
    requires refresh <= 24 * HOUR || notAfter - notBefore >= 60 * HOUR
    ensures (forall times ::
               Schedule(times, ExpiryRetryAfter(refresh)) && Covers(times, LatestTime(notBefore, notAfter)) ==>
                 Renewed(times, notBefore, notAfter, refresh, signer))
       <==> !(refresh <= 24 * HOUR && (notAfter - notBefore) % 5 == 4
              && refresh == (notAfter - notBefore) - (notAfter - notBefore) / 5)
  {
    RenewalWindow(notBefore, notAfter, refresh, signer, ExpiryRetryAfter(refresh));
    hide Schedule, Covers, Renewed;
  }

  // ---------- the closed loop ----------

  /** The next check comes after gap, and may fail; draw feeds the pass it may trigger, of which written is
      stored. */
  datatype Beat = Beat(gap: nat, answered: bool, draw: nat, written: set<ObjectRef>)

  function AllRefs(k: Stack): set<ObjectRef> {
    {SignerRef, BundleRef} + set name | name in k.hosts :: TargetRef(name)
  }

  function PassOf(k: Stack, draw: nat): Event { Pass(draw, AllRefs(k)) }

  function Elapse(w: World, gap: nat): World { w.(now := w.now + gap) }

  ghost predicate Triggers(k: Stack, w: World, beat: Beat) {
    beat.answered && Check(InputsFor(k, w.cluster), w.now).Reports()
  }

  /** A check; when it reports, the annotated stack is reconciled and a pass follows. */
  ghost function Poll(k: Stack, w: World, beat: Beat): World {
    if Triggers(k, w, beat) then Step(k, w, Pass(beat.draw, beat.written)) else w
  }

  ghost predicate CanPoll(k: Stack, w: World, beats: seq<Beat>)
    decreases |beats|
  {
    beats == [] ||
    var w' := Elapse(w, beats[0].gap);
    Enabled(k, w', PassOf(k, beats[0].draw)) && CanPoll(k, Poll(k, w', beats[0]), beats[1..])
  }

  /** At this instant every component has an unexpired certificate with the right names, issued by an unexpired CA of
      the bundle. */
  ghost predicate Serving(k: Stack, c: Cluster, now: int) {
    forall name :: name in k.hosts ==>
      name in c.targets && c.targets[name].tls.Some?
      && c.targets[name].tls.value.Unexpired(now)
      && c.targets[name].tls.value.hostnames == k.hosts[name]
      && exists ca :: ca in StoredCerts(c.bundle) && ca.key == c.targets[name].tls.value.signedBy && ca.Unexpired(now)
  }

  /** Serving at every instant from now on, through all beats. */
  ghost predicate AlwaysServing(k: Stack, w: World, beats: seq<Beat>)
    decreases |beats|
  {
    Serving(k, w.cluster, w.now) &&
    (beats != [] ==>
       (forall now :: w.now <= now <= w.now + beats[0].gap ==> Serving(k, w.cluster, now))
       && AlwaysServing(k, Poll(k, Elapse(w, beats[0].gap), beats[0]), beats[1..]))
  }

  /** The least validity a target is ever issued with. */
  function LeastValidity(r: RotationSettings): int { Least(r.targetValidity, r.caValidity / 5) }

  /** Checkable before deployment: a CA's validity is not its refresh setting, even the shortest-lived target outlives
      its refresh setting, and checks come at least five times in the shortest target's life. */
  ghost predicate SoundSettings(k: Stack, gap: int) {
    && NonNegative(k.rotation) && k.rotation.caValidity != k.rotation.caRefresh
    && k.rotation.targetRefresh < LeastValidity(k.rotation)
    && gap <= LeastValidity(k.rotation) / 5
    && k.issuer != ""
    && forall name :: name in k.hosts ==> Representable(k.hosts[name])
  }

  /** One target after a check: never short-lived, and with a fifth of its least validity ahead. */
  predicate FreshTarget(r: RotationSettings, cert: Certificate, now: int) {
    cert.Validity() >= LeastValidity(r) && cert.notAfter - now >= LeastValidity(r) / 5
  }

  ghost predicate Healthy(k: Stack, w: World) {
    && WellFormed(k, w) && Anchored(w.cluster, w.now)
    && w.cluster.signer.Some? && StoredCerts(w.cluster.bundle) != []
    && w.cluster.targets.Keys == k.hosts.Keys
    && forall name :: name in k.hosts ==> FreshTarget(k.rotation, w.cluster.targets[name].tls.value, w.now)
  }

  /** What is left of health while passes fail: nothing expires before this instant. */
  ghost predicate Lasting(k: Stack, w: World, until: int) {
    && WellFormed(k, w) && Anchored(w.cluster, w.now) && LongEnough(k, w.cluster)
    && w.cluster.signer.Some? && StoredCerts(w.cluster.bundle) != []
    && w.cluster.targets.Keys == k.hosts.Keys
    && forall name :: name in k.hosts ==> EndsAfter(w.cluster.targets[name], until)
  }

  predicate EndsAfter(s: SecretState, until: int) { s.tls.Some? && until <= s.tls.value.notAfter }

  lemma HealthyLasts(k: Stack, w: World)
    requires Healthy(k, w)
    ensures Lasting(k, w, w.now + LeastValidity(k.rotation) / 5)
  {
    forall name | name in k.hosts
      ensures EndsAfter(w.cluster.targets[name], w.now + LeastValidity(k.rotation) / 5)
      ensures w.cluster.targets[name].tls.value.Validity() >= LeastValidity(k.rotation)
    {
      assert GoodTarget(k, w.cas, w.draws, name, w.cluster.targets[name]);
      assert FreshTarget(k.rotation, w.cluster.targets[name].tls.value, w.now);
    }
  }

  lemma LastingServes(k: Stack, w: World, until: int, now: int)
    requires Lasting(k, w, until) && w.now <= now <= until
    ensures Serving(k, w.cluster, now)
  {
    AnchoredIsTrusted(w.cluster, w.now, now);
    forall name | name in k.hosts
      ensures w.cluster.targets[name].tls.Some? && w.cluster.targets[name].tls.value.Unexpired(now)
      ensures w.cluster.targets[name].tls.value.hostnames == k.hosts[name]
    {
      assert GoodTarget(k, w.cas, w.draws, name, w.cluster.targets[name]);
      assert EndsAfter(w.cluster.targets[name], until);
    }
  }

  /** A target that raises no reason is fresh. */
  lemma QuietTargetFresh(k: Stack, s: SecretState, signer: Certificate, now: int)
    requires SoundSettings(k, 0) && s.tls.Some? && Describes(s.annotations, s.tls.value)
    requires s.tls.value.Validity() >= LeastValidity(k.rotation)
    requires NeedNewCertificate(s.annotations, now, k.rotation.targetRefresh, Some(signer)).None?
    ensures FreshTarget(k.rotation, s.tls.value, now)
  {
    QuietMeansFifthLeft(s.annotations, Some(signer), k.rotation.targetRefresh, now);
  }

  /** A pass leaves every target fresh. */
  lemma BuiltTargetFresh(k: Stack, w: World, draw: nat, b: Built, name: string)
    requires WellFormed(k, w) && Enabled(k, w, Pass(draw, {})) && BuiltFrom(k, w.cluster, w.now, draw, b)
    requires SoundSettings(k, 0) && name in k.hosts
    requires name in w.cluster.targets ==> w.cluster.targets[name].tls.value.Validity() >= LeastValidity(k.rotation)
    ensures b.targets[name].tls.Some? && FreshTarget(k.rotation, b.targets[name].tls.value, w.now)
  {
    var key := SelfSignedCertKey(Lookup(w.cluster.targets, name), k.hosts[name]);
    SignerFacts(k, w, draw, b.signer);
    if TargetDue(k.rotation, key, b.signer.tls.value, b.bundle, w.now) {
      IssuedTargetLifetime(k, w, draw, b, name);
    } else {
      assert GoodTarget(k, w.cas, w.draws, name, w.cluster.targets[name]);
      QuietTargetFresh(k, b.targets[name], b.signer.tls.value, w.now);
    }
  }

  ghost predicate LongEnough(k: Stack, c: Cluster) {
    forall name :: name in c.targets && c.targets[name].tls.Some? ==>
        c.targets[name].tls.value.Validity() >= LeastValidity(k.rotation)
  }

  /** What a full pass stores is healthy. */
  lemma StoredIsHealthy(k: Stack, w: World, draw: nat, b: Built)
    requires WellFormed(k, w) && Enabled(k, w, PassOf(k, draw)) && SoundSettings(k, 0) && LongEnough(k, w.cluster)
    requires BuiltFrom(k, w.cluster, w.now, draw, b) && b.targets.Keys == k.hosts.Keys
    ensures b.signer.tls.Some? && b.bundle != []
    ensures forall name :: name in k.hosts ==>
              b.targets[name].tls.Some? && FreshTarget(k.rotation, b.targets[name].tls.value, w.now)
  {
    hide FilterExpired, Dedupe;
    SignerFacts(k, w, draw, b.signer);
    assert b.signer.tls.value in [b.signer.tls.value] + StoredCerts(w.cluster.bundle);
    assert b.signer.tls.value in b.bundle;
    forall name | name in k.hosts
      ensures b.targets[name].tls.Some? && FreshTarget(k.rotation, b.targets[name].tls.value, w.now)
    {
      assert name in w.cluster.targets ==> GoodTarget(k, w.cas, w.draws, name, w.cluster.targets[name]);
      BuiltTargetFresh(k, w, draw, b, name);
    }
  }

  lemma PassMakesHealthy(k: Stack, w: World, draw: nat)
    requires WellFormed(k, w) && Enabled(k, w, PassOf(k, draw)) && SoundSettings(k, 0)
    requires LongEnough(k, w.cluster)
    ensures Healthy(k, Step(k, w, PassOf(k, draw)))
  {
    var e := PassOf(k, draw);
    StepKeepsWellFormed(k, w, e);
    BuildSucceeds(k, w, draw);
    PassAnchors(k, w, e);
    hide BuildFor, BuildAll, WellFormed, Anchored, SoundSettings, LongEnough, FreshTarget;
    PassStores(k, w, draw);
    BuiltIsHealthy(k, w, draw);
  }

  /** A full pass leaves exactly what it built. */
  lemma PassStores(k: Stack, w: World, draw: nat)
    requires WellFormed(k, w) && BuildFor(k, w.cluster, w.now, draw).Ok?
    ensures Step(k, w, PassOf(k, draw)).cluster == Stored(BuildFor(k, w.cluster, w.now, draw).value)
    ensures Step(k, w, PassOf(k, draw)).now == w.now
  {
    BuildParts(k, w.cluster, w.now, draw);
    hide BuildFor, BuildAll, RotateSigner, RebuildBundle;
    var b := BuildFor(k, w.cluster, w.now, draw).value;
    assert forall name :: name in w.cluster.targets ==> GoodTarget(k, w.cas, w.draws, name, w.cluster.targets[name]);
    FullPersist(w.cluster, b, AllRefs(k));
  }

  lemma BuiltIsHealthy(k: Stack, w: World, draw: nat)
    requires WellFormed(k, w) && Enabled(k, w, PassOf(k, draw)) && SoundSettings(k, 0) && LongEnough(k, w.cluster)
    requires BuildFor(k, w.cluster, w.now, draw).Ok?
    ensures var b := BuildFor(k, w.cluster, w.now, draw).value;
            && b.bundle != [] && b.targets.Keys == k.hosts.Keys
            && forall name :: name in k.hosts ==>
                 b.targets[name].tls.Some? && FreshTarget(k.rotation, b.targets[name].tls.value, w.now)
  {
    BuildParts(k, w.cluster, w.now, draw);
    hide BuildFor, BuildAll, RotateSigner, RebuildBundle, WellFormed, SoundSettings, LongEnough, FreshTarget;
    StoredIsHealthy(k, w, draw, BuildFor(k, w.cluster, w.now, draw).value);
  }

  /** A check that reports nothing finds everything fresh. */
  lemma QuietPollIsHealthy(k: Stack, w: World)
    requires WellFormed(k, w) && Anchored(w.cluster, w.now) && SoundSettings(k, 0) && LongEnough(k, w.cluster)
    requires w.cluster.signer.Some? && StoredCerts(w.cluster.bundle) != [] && w.cluster.targets.Keys == k.hosts.Keys
    requires !Check(InputsFor(k, w.cluster), w.now).Reports()
    ensures Healthy(k, w)
  {
    var o := InputsFor(k, w.cluster);
    assert GoodSigner(w.cas, w.cluster.signer.value);
    forall name | name in k.hosts
      ensures FreshTarget(k.rotation, w.cluster.targets[name].tls.value, w.now)
    {
      assert GoodTarget(k, w.cas, w.draws, name, w.cluster.targets[name]);
      var reasons := map n | n in o.certificates && CheckReason(o, n, w.now).Some? :: CheckReason(o, n, w.now).value;
      assert reasons == map[];
      assert name in reasons <==> CheckReason(o, name, w.now).Some?;
      QuietTargetFresh(k, w.cluster.targets[name], w.cluster.signer.value.tls.value, w.now);
    }
  }

  lemma LastingElapses(k: Stack, w: World, until: int, gap: nat)
    requires Lasting(k, w, until)
    ensures Lasting(k, Elapse(w, gap), until)
  {
    StepKeepsWellFormed(k, w, Tick(gap));
    AnchoredIsTrusted(w.cluster, w.now, w.now + gap);
  }

  /** The beat does all it should: it gets an answer, and stores everything if it has to. */
  ghost predicate Succeeds(k: Stack, w: World, beat: Beat) {
    beat.answered && (Triggers(k, w, beat) ==> beat.written == AllRefs(k))
  }

  lemma SuccessHeals(k: Stack, w: World, beat: Beat, until: int)
    requires Lasting(k, w, until) && SoundSettings(k, 0) && Enabled(k, w, PassOf(k, beat.draw)) && Succeeds(k, w, beat)
    ensures Healthy(k, Poll(k, w, beat))
  {
    if Triggers(k, w, beat) {
      PassMakesHealthy(k, w, beat.draw);
    } else {
      QuietPollIsHealthy(k, w);
    }
  }

  /** A pass of which any part is stored, safely, shortens nothing. */
  lemma PartialPassLasts(k: Stack, w: World, e: Event, until: int)
    requires Lasting(k, w, until) && SoundSettings(k, 0) && e.Pass? && Enabled(k, w, e) && PassSafe(k, w, e)
    requires until <= w.now + LeastValidity(k.rotation) / 5
    ensures Lasting(k, Step(k, w, e), until)
  {
    StepKeepsWellFormed(k, w, e);
    SafePassAnchors(k, w, e);
    StepKeepsBundleFilled(k, w, e);
    BuildSucceeds(k, w, e.draw);
    BuiltEndsAfter(k, w, e.draw, until);
    hide BuildFor, WellFormed, Anchored, Enabled, PassSafe, SoundSettings, EndsAfter, LongEnough, Persist, BuiltToLast;
    PersistLasts(k, w.cluster, BuildFor(k, w.cluster, w.now, e.draw).value, e.written, until);
  }

  ghost predicate BuiltToLast(k: Stack, b: Built, until: int) {
    b.targets.Keys == k.hosts.Keys
    && forall name :: name in k.hosts ==>
         EndsAfter(b.targets[name], until) && b.targets[name].tls.value.Validity() >= LeastValidity(k.rotation)
  }

  lemma BuiltEndsAfter(k: Stack, w: World, draw: nat, until: int)
    requires WellFormed(k, w) && LongEnough(k, w.cluster) && SoundSettings(k, 0) && Enabled(k, w, Pass(draw, {}))
    requires BuildFor(k, w.cluster, w.now, draw).Ok? && until <= w.now + LeastValidity(k.rotation) / 5
    ensures BuiltToLast(k, BuildFor(k, w.cluster, w.now, draw).value, until)
  {
    var b := BuildFor(k, w.cluster, w.now, draw).value;
    hide BuildFor, BuildAll, WellFormed, SoundSettings, LongEnough;
    BuiltIsHealthy(k, w, draw);
    forall name | name in k.hosts
      ensures EndsAfter(b.targets[name], until) && b.targets[name].tls.value.Validity() >= LeastValidity(k.rotation)
    {
      assert FreshTarget(k.rotation, b.targets[name].tls.value, w.now);
    }
  }

  lemma StepKeepsBundleFilled(k: Stack, w: World, e: Event)
    requires WellFormed(k, w) && e.Pass? && Enabled(k, w, e) && SoundSettings(k, 0)
    requires StoredCerts(w.cluster.bundle) != []
    ensures StoredCerts(Step(k, w, e).cluster.bundle) != []
  {
    StepKeepsBundle(k, w, e);
  }

  lemma PersistLasts(k: Stack, c: Cluster, b: Built, written: set<ObjectRef>, until: int)
    requires LongEnough(k, c) && c.signer.Some? && c.targets.Keys == k.hosts.Keys && BuiltToLast(k, b, until)
    requires forall name :: name in k.hosts ==> EndsAfter(c.targets[name], until)
    ensures var c' := Persist(c, b, written);
            && LongEnough(k, c') && c'.signer.Some? && c'.targets.Keys == k.hosts.Keys
            && forall name :: name in k.hosts ==> EndsAfter(c'.targets[name], until)
  {}

  predicate Paced(beats: seq<Beat>, gap: int) {
    forall i :: 0 <= i < |beats| ==> beats[i].gap <= gap
  }

  /** Never more than n beats in a row fail to do all they should, and those that store only a part store it safely;
      left is how many more may fail now. */
  ghost predicate Tolerable(k: Stack, w: World, beats: seq<Beat>, n: nat, left: nat)
    decreases |beats|
  {
    beats == [] ||
    var w', beat := Elapse(w, beats[0].gap), beats[0];
    if Succeeds(k, w', beat) then Tolerable(k, Poll(k, w', beat), beats[1..], n, n)
    else
      && left > 0 && (Triggers(k, w', beat) ==> PassSafe(k, w', Pass(beat.draw, beat.written)))
      && Tolerable(k, Poll(k, w', beat), beats[1..], n, left - 1)
  }

  lemma BeatLasts(k: Stack, w: World, beat: Beat, until: int)
    requires Lasting(k, w, until) && SoundSettings(k, 0) && Enabled(k, w, PassOf(k, beat.draw))
    requires until <= w.now + LeastValidity(k.rotation) / 5
    requires Triggers(k, w, beat) ==> PassSafe(k, w, Pass(beat.draw, beat.written))
    ensures Lasting(k, Poll(k, w, beat), until) && Poll(k, w, beat).now == w.now
  {
    if Triggers(k, w, beat) { PartialPassLasts(k, w, Pass(beat.draw, beat.written), until); }
  }

  /** While left more beats may fail, there is time for that many gaps and one more. */
  lemma {:induction false} LastingForever(k: Stack, w: World, beats: seq<Beat>, n: nat, left: nat, gap: nat, until: int)
    requires Lasting(k, w, until) && SoundSettings(k, Gaps(n, gap)) && Paced(beats, gap) && left <= n
    requires w.now + Gaps(left, gap) <= until <= w.now + LeastValidity(k.rotation) / 5
    requires CanPoll(k, w, beats) && Tolerable(k, w, beats, n, left)
    ensures AlwaysServing(k, w, beats)
    decreases |beats|
  {
    hide SoundSettings, Serving, Lasting, LeastValidity, Triggers, PassSafe, Enabled, Healthy;
    GapsGrow(n, left, gap);
    SoundWithout(k, Gaps(n, gap));
    LastingServes(k, w, until, w.now);
    if beats != [] {
      var beat, w' := beats[0], Elapse(w, beats[0].gap);
      forall now | w.now <= now <= w.now + beat.gap ensures Serving(k, w.cluster, now) {
        LastingServes(k, w, until, now);
      }
      LastingElapses(k, w, until, beat.gap);
      if Succeeds(k, w', beat) {
        SuccessHeals(k, w', beat, until);
        HealthyLasts(k, Poll(k, w', beat));
        LastingForever(k, Poll(k, w', beat), beats[1..], n, n, gap, w'.now + LeastValidity(k.rotation) / 5);
      } else {
        BeatLasts(k, w', beat, until);
        LastingForever(k, Poll(k, w', beat), beats[1..], n, left - 1, gap, until);
      }
    }
  }

  function Gaps(n: nat, gap: nat): nat { (n + 1) * gap }

  lemma SoundWithout(k: Stack, gap: nat)
    requires SoundSettings(k, gap)
    ensures SoundSettings(k, 0) && gap <= LeastValidity(k.rotation) / 5
  {}

  lemma GapsGrow(n: nat, left: nat, gap: nat)
    ensures Gaps(left, gap) == gap + if left == 0 then 0 else Gaps(left - 1, gap)
    ensures left <= n ==> Gaps(left, gap) <= Gaps(n, gap)
  {
    if left <= n { assert (n + 1) * gap == (left + 1) * gap + (n - left) * gap; }
  }

  /** No outage: after the first pass on an empty cluster, and while at most n checks or passes in a row fail, checks at
      any times no further apart than a fifth of the least validity, divided by n + 1, keep every component served at
      every instant, through every rotation of targets and CA. */
  lemma NoOutage(k: Stack, start: nat, draw: nat, beats: seq<Beat>, n: nat, gap: nat)
    requires SoundSettings(k, (n + 1) * gap) && Paced(beats, gap)
    requires CanPoll(k, Step(k, Init(start), PassOf(k, draw)), beats)
    requires Tolerable(k, Step(k, Init(start), PassOf(k, draw)), beats, n, n)
    ensures AlwaysServing(k, Step(k, Init(start), PassOf(k, draw)), beats)
  {
    var w := Init(start);
    PassMakesHealthy(k, w, draw);
    HealthyLasts(k, Step(k, w, PassOf(k, draw)));
    LastingForever(k, Step(k, w, PassOf(k, draw)), beats, n, n, gap, start + LeastValidity(k.rotation) / 5);
  }

  /** The operator's own defaults and its own check interval meet the condition, for 35 failures in a row. */
  lemma DefaultSettingsAreSound(k: Stack)
    requires k.rotation == RotationSettings(43830 * HOUR, 35064 * HOUR, 2160 * HOUR, 1728 * HOUR)
    requires k.issuer != "" && forall name :: name in k.hosts ==> Representable(k.hosts[name])
    ensures SoundSettings(k, 36 * ExpiryRetryAfter(k.rotation.targetRefresh))
    ensures ExpiryRetryAfter(k.rotation.targetRefresh) == 12 * HOUR && ExpiryRetryAfter(24 * HOUR) == 6 * HOUR
  {}

  // ---------- the checker in a run ----------

  /** A stored bundle is never empty. */
  predicate BundleHolds(c: Cluster) { c.bundle.Some? ==> StoredCerts(c.bundle) != [] }

  lemma RebuiltHoldsSigner(signer: Certificate, stored: seq<Certificate>, now: int)
    requires signer.Unexpired(now)
    ensures Rebuilt(signer, stored, now) != []
  {
    assert signer in [signer] + stored;
    assert signer in Rebuilt(signer, stored, now);
  }

  lemma StepKeepsBundle(k: Stack, w: World, e: Event)
    requires WellFormed(k, w) && Enabled(k, w, e) && k.rotation.caValidity >= 0 && BundleHolds(w.cluster)
    ensures BundleHolds(Step(k, w, e).cluster)
  {
    if e.Pass? && BuildFor(k, w.cluster, w.now, e.draw).Ok? {
      var b := BuildFor(k, w.cluster, w.now, e.draw).value;
      BuildParts(k, w.cluster, w.now, e.draw);
      SignerFacts(k, w, e.draw, b.signer);
      RebuiltHoldsSigner(b.signer.tls.value, StoredCerts(w.cluster.bundle), w.now);
    }
  }

  lemma {:induction false} RunKeepsBundle(k: Stack, w: World, events: seq<Event>)
    requires WellFormed(k, w) && CanRun(k, w, events) && k.rotation.caValidity >= 0 && BundleHolds(w.cluster)
    ensures BundleHolds(Run(k, w, events).cluster)
    decreases |events|
  {
    if events != [] {
      StepKeepsBundle(k, w, events[0]);
      StepKeepsWellFormed(k, w, events[0]);
      RunKeepsBundle(k, Step(k, w, events[0]), events[1..]);
    }
  }

  predicate AllStored(k: Stack, c: Cluster) { c.signer.Some? && c.bundle.Some? && c.targets.Keys == k.hosts.Keys }

  lemma CheckerAgreesInWorld(k: Stack, w: World, draw: nat)
    requires WellFormed(k, w) && Anchored(w.cluster, w.now) && Enabled(k, w, Pass(draw, {}))
    requires AllStored(k, w.cluster) && BundleHolds(w.cluster) && BuildFor(k, w.cluster, w.now, draw).Ok?
    ensures AllPresent(InputsFor(k, w.cluster))
    ensures Check(InputsFor(k, w.cluster), w.now).Reports()
       <==> Replaces(InputsFor(k, w.cluster), BuildFor(k, w.cluster, w.now, draw).value)
  {
    var o := InputsFor(k, w.cluster);
    hide BuildAll, Check;
    StoredInputsFacts(k, w, draw, o);
    CheckerAgreesWithBuilder(o, w.now, draw);
  }

  /** Stored objects of a well-formed world are trusted by name, and no draw was used before. */
  lemma StoredInputsFacts(k: Stack, w: World, draw: nat, o: Inputs)
    requires WellFormed(k, w) && Anchored(w.cluster, w.now) && Enabled(k, w, Pass(draw, {}))
    requires AllStored(k, w.cluster) && o == InputsFor(k, w.cluster)
    ensures AllPresent(o) && TrustedByName(o, w.now) && FreshDraw(o, draw)
  {
    assert GoodSigner(w.cas, w.cluster.signer.value);
    assert GenuineCA(k, w.draws, w.now, w.cluster.signer.value.tls.value);
    forall name | name in o.certificates
      ensures GoodTarget(k, w.cas, w.draws, name, w.cluster.targets[name])
    {}
    forall name | name in o.certificates && o.certificates[name].secret.value.annotations.notAfter.At?
                  && w.now <= o.certificates[name].secret.value.annotations.notAfter.time
      ensures exists ca :: ca in StoredCerts(o.bundle) && ca.Unexpired(w.now)
                           && ca.subject == o.certificates[name].secret.value.annotations.issuer
    {
      assert InBundle(StoredCerts(w.cluster.bundle), w.cluster.targets[name].tls.value);
    }
  }

  /** In every run whose passes store safely, whenever all objects exist, the checker reports an expiry exactly when a
      pass at the same instant would replace some key pair. */
  lemma CheckerAgreesInRun(k: Stack, start: nat, events: seq<Event>, draw: nat)
    requires CanRun(k, Init(start), events) && RunSafe(k, Init(start), events) && k.rotation.caValidity >= 0
    requires var w := Run(k, Init(start), events);
             Enabled(k, w, Pass(draw, {})) && AllStored(k, w.cluster) && BuildFor(k, w.cluster, w.now, draw).Ok?
    ensures var w := Run(k, Init(start), events);
            AllPresent(InputsFor(k, w.cluster))
            && (Check(InputsFor(k, w.cluster), w.now).Reports()
                <==> Replaces(InputsFor(k, w.cluster), BuildFor(k, w.cluster, w.now, draw).value))
  {
    hide BuildAll, Check, InputsFor;
    RunKeepsWellFormed(k, Init(start), events);
    SafeRunTrusted(k, Init(start), events);
    RunKeepsBundle(k, Init(start), events);
    CheckerAgreesInWorld(k, Run(k, Init(start), events), draw);
  }
}
