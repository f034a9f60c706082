/** The upgrade steps of the TempoStack (internal/upgrade/versions.go and v*.go) and the loop and patches that apply
    them, on mutable objects. */
module UpgradeSteps {
  import opened Wrappers
  import opened SemVer
  import opened Upgrade

  datatype Limits = Limits(maxSearchBytesPerTrace: Option<int>, rest: string)

  datatype Images = Images(tempo: string, tempoQuery: string, tempoGateway: string, tempoGatewayOpa: string)

  datatype Spec = Spec(
    globalLimits: Limits,
    perTenant: map<string, Limits>,
    images: Images,
    tlsEnabled: bool,
    tlsCA: string,
    prometheusEndpoint: string,
    rest: string)

  const THANOS_9091 := "https://thanos-querier.openshift-monitoring.svc.cluster.local:9091"
  const THANOS_9092 := "https://thanos-querier.openshift-monitoring.svc.cluster.local:9092"

  // ---------- the steps as functions on the spec ----------

  function WithoutMaxSearch(l: Limits): Limits { l.(maxSearchBytesPerTrace := None) }

  function WithoutAnyMaxSearch(perTenant: map<string, Limits>): map<string, Limits> {
    map tenant | tenant in perTenant :: WithoutMaxSearch(perTenant[tenant])
  }

  function ClearMaxSearch(s: Spec): Spec {
    s.(globalLimits := WithoutMaxSearch(s.globalLimits), perTenant := WithoutAnyMaxSearch(s.perTenant))
  }

  function ClearImages(s: Spec): Spec { s.(images := Images("", "", "", "")) }

  function DeriveTls(s: Spec): Spec { if s.tlsCA != "" then s.(tlsEnabled := true) else s }

  function MoveEndpoint(s: Spec): Spec {
    if s.prometheusEndpoint == THANOS_9091 then s.(prometheusEndpoint := THANOS_9092) else s
  }

  /** The effect of the i-th step; the steps not listed act on the cluster only. */
  function EffectOf(i: nat, s: Spec): Spec {
    match i
    case 1 => ClearMaxSearch(s)
    case 3 => ClearImages(s)
    case 4 => DeriveTls(s)
    case 6 => MoveEndpoint(s)
    case _ => s
  }

  const STEP_VERSIONS: seq<Version> :=
    [Release(0, 1, 0), Release(0, 3, 0), Release(0, 5, 0), Release(0, 6, 0), Release(0, 8, 0), Release(0, 11, 0),
     Release(0, 15, 4)]

  const STEP_NAMES: seq<string> := ["0.1.0", "0.3.0", "0.5.0", "0.6.0", "0.8.0", "0.11.0", "0.15.4"]

  function UpgradeTable(): (t: seq<Step<Spec>>)
    ensures |t| == 7
  {
    seq(7, i requires 0 <= i < 7 => Step(STEP_VERSIONS[i], s => EffectOf(i, s)))
  }

  lemma EndpointsDiffer()
    ensures THANOS_9091 != THANOS_9092
  {
    assert THANOS_9091[|THANOS_9091| - 1] == '1' && THANOS_9092[|THANOS_9092| - 1] == '2';
  }

  lemma EffectsCommute(i: nat, j: nat, s: Spec)
    ensures EffectOf(i, EffectOf(j, s)) == EffectOf(j, EffectOf(i, s))
  {
    hide WithoutAnyMaxSearch, WithoutMaxSearch;
    ClearMaxSearchCommutes(s);
    assert ClearImages(DeriveTls(s)) == DeriveTls(ClearImages(s));
    assert ClearImages(MoveEndpoint(s)) == MoveEndpoint(ClearImages(s));
    assert DeriveTls(MoveEndpoint(s)) == MoveEndpoint(DeriveTls(s));
    hide ClearMaxSearch, ClearImages, DeriveTls, MoveEndpoint;
  }

  lemma ClearMaxSearchCommutes(s: Spec)
    ensures ClearMaxSearch(ClearImages(s)) == ClearImages(ClearMaxSearch(s))
    ensures ClearMaxSearch(DeriveTls(s)) == DeriveTls(ClearMaxSearch(s))
    ensures ClearMaxSearch(MoveEndpoint(s)) == MoveEndpoint(ClearMaxSearch(s))
  {
    hide WithoutAnyMaxSearch, WithoutMaxSearch;
  }

  lemma EffectTwice(i: nat, s: Spec)
    ensures EffectOf(i, EffectOf(i, s)) == EffectOf(i, s)
  {
    EndpointsDiffer();
    var perTenant := s.perTenant;
    assert WithoutAnyMaxSearch(WithoutAnyMaxSearch(perTenant)) == WithoutAnyMaxSearch(perTenant);
  }

  /** The steps that the operator ships are in ascending order, idempotent, and touch disjoint parts of the spec. */
  lemma TableIsSafe()
    ensures SafeTable(UpgradeTable())
  {
    var t := UpgradeTable();
    forall i, j | 0 <= i < j < |t| ensures Precedes(t[i].version, t[j].version) {
      assert STEP_VERSIONS[i].major == 0 && STEP_VERSIONS[i].minor < STEP_VERSIONS[j].minor;
    }
    forall i, j, s | 0 <= i < |t| && 0 <= j < |t| ensures t[i].effect(t[j].effect(s)) == t[j].effect(t[i].effect(s)) {
      EffectsCommute(i, j, s);
    }
    forall i, s | 0 <= i < |t| ensures t[i].effect(t[i].effect(s)) == t[i].effect(s) {
      EffectTwice(i, s);
    }
  }

  /** What an instance from before all steps looks like after them. */
  lemma AllStepsApplied(s: Spec)
    ensures var r := Effects(UpgradeTable(), Release(0, 0, 0), Release(0, 15, 4), s);
            && r.globalLimits.maxSearchBytesPerTrace.None?
            && r.perTenant.Keys == s.perTenant.Keys
            && (forall tenant :: tenant in r.perTenant ==>
                  r.perTenant[tenant] == s.perTenant[tenant].(maxSearchBytesPerTrace := None))
            && r.images == Images("", "", "", "")
            && r.tlsEnabled == (s.tlsEnabled || s.tlsCA != "") && r.tlsCA == s.tlsCA
            && r.prometheusEndpoint
                == (if s.prometheusEndpoint == THANOS_9091 then THANOS_9092 else s.prometheusEndpoint)
            && r.rest == s.rest
  {
    var t := UpgradeTable();
    hide Effects, Precedes;
    EffectsNone(t, s);
    EffectsPrefix(t, 0, s);
    EffectsPrefix(t, 1, s);
    EffectsPrefix(t, 2, s);
    EffectsPrefix(t, 3, s);
    EffectsPrefix(t, 4, s);
    EffectsPrefix(t, 5, s);
    EffectsPrefix(t, 6, s);
    assert t[..7] == t;
  }

  lemma EffectsNone(t: seq<Step<Spec>>, s: Spec)
    ensures Effects(t[..0], Release(0, 0, 0), Release(0, 15, 4), s) == s
  {}

  lemma EffectsPrefix(t: seq<Step<Spec>>, i: nat, s: Spec)
    requires t == UpgradeTable() && i < 7
    ensures Effects(t[..i + 1], Release(0, 0, 0), Release(0, 15, 4), s)
         == EffectOf(i, Effects(t[..i], Release(0, 0, 0), Release(0, 15, 4), s))
  {
    assert t[..i + 1][..i] == t[..i];
  }

  // ---------- which steps an instance gets, by its numbers ----------

  /** The version is lower than 0.minor.patch. */
  predicate Before(v: Version, minor: nat, patch: nat) {
    v.major == 0
    && (v.minor < minor || (v.minor == minor && (v.patch < patch || (v.patch == patch && v.preRelease != []))))
  }

  lemma SelectedIsBefore(v: Version, minor: nat, patch: nat)
    ensures Precedes(v, Release(0, minor, patch)) <==> Before(v, minor, patch)
  {}

  lemma RunOneMore(v: Version, fails: Failing, i: nat, minor: nat, patch: nat, s: Spec)
    requires i < 7 && STEP_VERSIONS[i] == Release(0, minor, patch) && forall w :: !fails(w)
    ensures var before := RunSteps(UpgradeTable()[..i], v, fails, s);
            RunSteps(UpgradeTable()[..i + 1], v, fails, s) ==
              if before.None? || !Before(v, minor, patch) then before else Some(EffectOf(i, before.value))
  {
    SelectedIsBefore(v, minor, patch);
    assert UpgradeTable()[..i + 1][..i] == UpgradeTable()[..i];
    hide Precedes, Before;
  }

  /** What the steps make of a spec, for an instance of this version. */
  lemma RunByNumbers(v: Version, fails: Failing, s: Spec)
    requires forall w :: !fails(w)
    ensures var s1 := if Before(v, 3, 0) then ClearMaxSearch(s) else s;
            var s2 := if Before(v, 6, 0) then ClearImages(s1) else s1;
            var s3 := if Before(v, 8, 0) then DeriveTls(s2) else s2;
            RunSteps(UpgradeTable(), v, fails, s) == Some(if Before(v, 15, 4) then MoveEndpoint(s3) else s3)
  {
    var t := UpgradeTable();
    RunNone(v, fails, s);
    RunOneMore(v, fails, 0, 1, 0, s);
    RunOneMore(v, fails, 1, 3, 0, s);
    RunOneMore(v, fails, 2, 5, 0, s);
    RunOneMore(v, fails, 3, 6, 0, s);
    RunOneMore(v, fails, 4, 8, 0, s);
    RunOneMore(v, fails, 5, 11, 0, s);
    RunOneMore(v, fails, 6, 15, 4, s);
    hide RunSteps, Before, UpgradeTable, ClearMaxSearch, ClearImages, DeriveTls, MoveEndpoint;
    assert t[..7] == t;
  }

  lemma RunNone(v: Version, fails: Failing, s: Spec)
    ensures RunSteps(UpgradeTable()[..0], v, fails, s) == Some(s)
  {}

  /** An instance that is not newer than the running operator gets exactly the changes of the versions above its own,
      whatever they are compared by, and records the versions of the operator. */
  lemma UpgradeByNumbers(upgrader: Upgrader, fails: Failing, cr: Cr<Spec>)
    requires upgrader.parse(cr.operatorVersion).Some? && upgrader.parse(upgrader.operatorVersion).Some?
    requires cr.operatorVersion != upgrader.operatorVersion && forall w :: !fails(w)
    requires var v, y := VersionOf(upgrader.parse, cr.operatorVersion),
                         VersionOf(upgrader.parse, upgrader.operatorVersion);
             !NumbersLess(y, v) && (Numbers(y) == Numbers(v) ==> y.preRelease == [])
    ensures var v := VersionOf(upgrader.parse, cr.operatorVersion);
            var r := UpgradeSpec(upgrader.parse, upgrader.Release(), fails, cr);
            && r.Ok? && r.value.operatorVersion == upgrader.operatorVersion
            && r.value.tempoVersion == upgrader.tempoVersion
            && var old_, new_ := cr.spec, r.value.spec;
               && new_.globalLimits ==
                    (if Before(v, 3, 0) then old_.globalLimits.(maxSearchBytesPerTrace := None) else old_.globalLimits)
               && new_.perTenant.Keys == old_.perTenant.Keys
               && (forall tenant :: tenant in old_.perTenant ==>
                     new_.perTenant[tenant] ==
                       if Before(v, 3, 0) then old_.perTenant[tenant].(maxSearchBytesPerTrace := None)
                       else old_.perTenant[tenant])
               && new_.images == (if Before(v, 6, 0) then Images("", "", "", "") else old_.images)
               && new_.tlsEnabled == (old_.tlsEnabled || (Before(v, 8, 0) && old_.tlsCA != ""))
               && new_.tlsCA == old_.tlsCA
               && new_.prometheusEndpoint ==
                    (if Before(v, 15, 4) && old_.prometheusEndpoint == THANOS_9091 then THANOS_9092
                     else old_.prometheusEndpoint)
               && new_.rest == old_.rest
  {
    var v, y := VersionOf(upgrader.parse, cr.operatorVersion), VersionOf(upgrader.parse, upgrader.operatorVersion);
    NumbersDecide(y, v);
    RunByNumbers(v, fails, cr.spec);
    hide RunSteps, Precedes, NumbersLess, UpgradeTable, Before;
  }

  // ---------- the code, step by step ----------

  /** The limit is cleared for all tenants but these. */
  predicate PartlyCleared(before: map<string, Limits>, now: map<string, Limits>, tenants: set<string>) {
    now.Keys == before.Keys
    && forall t :: t in now ==> now[t] == if t in tenants then before[t] else WithoutMaxSearch(before[t])
  }

  lemma ClearOneMore(before: map<string, Limits>, now: map<string, Limits>, tenants: set<string>, tenant: string)
    requires PartlyCleared(before, now, tenants) && tenant in tenants && tenant in now
    ensures PartlyCleared(before, now[tenant := now[tenant].(maxSearchBytesPerTrace := None)], tenants - {tenant})
    ensures now[tenant].maxSearchBytesPerTrace.None? ==> PartlyCleared(before, now, tenants - {tenant})
  {}

  lemma AllCleared(before: map<string, Limits>, now: map<string, Limits>)
    requires PartlyCleared(before, now, {})
    ensures now == WithoutAnyMaxSearch(before)
  {}

  class TempoStack {
    var globalLimits: Limits
    var perTenant: map<string, Limits>
    var images: Images
    var tlsEnabled: bool
    var tlsCA: string
    var prometheusEndpoint: string
    var rest: string
    var operatorVersion: string
    var tempoVersion: string

    ghost function SpecValue(): Spec
      reads this
    {
      Spec(globalLimits, perTenant, images, tlsEnabled, tlsCA, prometheusEndpoint, rest)
    }

    ghost function Value(): Cr<Spec>
      reads this
    {
      Cr(SpecValue(), operatorVersion, tempoVersion)
    }

    /** DeepCopyObject. */
    constructor Copy(from: TempoStack)
      ensures Value() == from.Value()
    {
      globalLimits, perTenant, images, tlsEnabled := from.globalLimits, from.perTenant, from.images, from.tlsEnabled;
      tlsCA, prometheusEndpoint, rest := from.tlsCA, from.prometheusEndpoint, from.rest;
      operatorVersion, tempoVersion := from.operatorVersion, from.tempoVersion;
    }

    /** upgrade0_3_0: the tenants are visited in no particular order. */
    method Upgrade0_3_0()
      modifies this`globalLimits, this`perTenant
      ensures SpecValue() == ClearMaxSearch(old(SpecValue()))
    {
      if globalLimits.maxSearchBytesPerTrace.Some? {
        globalLimits := globalLimits.(maxSearchBytesPerTrace := None);
      }
      var tenants := perTenant.Keys;
      while tenants != {}
        invariant tenants <= perTenant.Keys && PartlyCleared(old(perTenant), perTenant, tenants)
        invariant globalLimits == WithoutMaxSearch(old(globalLimits))
        decreases |tenants|
      {
        var tenant :| tenant in tenants;
        ClearOneMore(old(perTenant), perTenant, tenants, tenant);
        hide PartlyCleared;
        tenants := tenants - {tenant};
        var limits := perTenant[tenant];
        if limits.maxSearchBytesPerTrace.Some? {
          limits := limits.(maxSearchBytesPerTrace := None);
          perTenant := perTenant[tenant := limits];
        }
      }
      AllCleared(old(perTenant), perTenant);
      hide PartlyCleared, WithoutAnyMaxSearch, WithoutMaxSearch;
    }

    method Upgrade0_6_0()
      modifies this`images
      ensures SpecValue() == ClearImages(old(SpecValue()))
    {
      images := images.(tempo := "");
      images := images.(tempoQuery := "");
      images := images.(tempoGateway := "");
      images := images.(tempoGatewayOpa := "");
    }

    method Upgrade0_8_0()
      modifies this`tlsEnabled
      ensures SpecValue() == DeriveTls(old(SpecValue()))
    {
      if tlsCA != "" { tlsEnabled := true; }
    }

    method Upgrade0_15_4()
      modifies this`prometheusEndpoint
      ensures SpecValue() == MoveEndpoint(old(SpecValue()))
    {
      if prometheusEndpoint == THANOS_9091 { prometheusEndpoint := THANOS_9092; }
    }

    /** One entry of the table; the entries without a case change nothing but the cluster. */
    method RunStep(i: nat)
      modifies this
      ensures SpecValue() == EffectOf(i, old(SpecValue()))
      ensures operatorVersion == old(operatorVersion) && tempoVersion == old(tempoVersion)
    {
      match i {
        case 1 => Upgrade0_3_0();
        case 3 => Upgrade0_6_0();
        case 4 => Upgrade0_8_0();
        case 6 => Upgrade0_15_4();
        case _ =>
      }
    }
  }

  /** The stored object; its status is a resource of its own. */
  class ApiServer {
    var stored: Cr<Spec>

    constructor (stored: Cr<Spec>)
      ensures this.stored == stored
    {
      this.stored := stored;
    }

    /** Patching the object leaves the stored status alone, and the response overwrites the status of the copy. */
    method Patch(o: TempoStack, spec: Spec, ok: bool)
      requires spec == o.SpecValue()
      modifies this, o`operatorVersion, o`tempoVersion
      ensures stored == if ok then old(stored).(spec := spec) else old(stored)
    {
      if ok {
        stored := stored.(spec := spec);
        o.operatorVersion := stored.operatorVersion;
        o.tempoVersion := stored.tempoVersion;
      }
    }

    method PatchStatus(operatorVersion: string, tempoVersion: string, ok: bool)
      modifies this
      ensures stored == if ok then Cr(old(stored).spec, operatorVersion, tempoVersion) else old(stored)
    {
      if ok { stored := stored.(operatorVersion := operatorVersion, tempoVersion := tempoVersion); }
    }
  }

  /** The running operator. */
  class Upgrader {
    const parse: Parser
    const operatorVersion: string
    const tempoVersion: string

    constructor (parse: Parser, operatorVersion: string, tempoVersion: string)
      ensures this.parse == parse && this.operatorVersion == operatorVersion && this.tempoVersion == tempoVersion
    {
      this.parse := parse;
      this.operatorVersion := operatorVersion;
      this.tempoVersion := tempoVersion;
    }

    ghost function Release(): Operator<Spec> {
      Operator(operatorVersion, tempoVersion, UpgradeTable())
    }

    /** upgradeSpec: works on a copy, so that a failing step leaves the original as it was. */
    method UpgradeCopy(original: TempoStack, fails: Failing) returns (upgraded: TempoStack, err: Option<UpgradeError>)
      ensures var r := UpgradeSpec(parse, Release(), fails, original.Value());
              if r.Err? then err == Some(r.error) && upgraded == original
              else err == None && upgraded.Value() == r.value
      ensures upgraded == original || fresh(upgraded)
      ensures original.Value() == old(original.Value())
    {
      upgraded := new TempoStack.Copy(original);
      if original.operatorVersion == operatorVersion { return original, None; }
      var instance := parse(original.operatorVersion);
      if instance.None? { return original, Some(Unparsable); }
      var current := parse(operatorVersion);
      if current.None? { return original, Some(Unparsable); }
      if Precedes(current.value, instance.value) { return original, None; }
      ghost var table := UpgradeTable();
      for i := 0 to |STEP_VERSIONS|
        invariant |STEP_VERSIONS| == |table|
        invariant fresh(upgraded) && original.Value() == old(original.Value())
        invariant RunSteps(table[..i], instance.value, fails, original.SpecValue()) == Some(upgraded.SpecValue())
      {
        assert table[..i + 1][..i] == table[..i];
        if Precedes(instance.value, STEP_VERSIONS[i]) {
          if fails(STEP_VERSIONS[i]) {
            FailedPrefix(table, i + 1, instance.value, fails, original.SpecValue());
            return original, Some(StepFailed);
          }
          upgraded.RunStep(i);
          upgraded.operatorVersion := STEP_NAMES[i];
        }
      }
      assert table[..|table|] == table;
      upgraded.operatorVersion := operatorVersion;
      upgraded.tempoVersion := tempoVersion;
      return upgraded, None;
    }

    /** Upgrade: the spec and the status are patched one after the other; either patch may fail. */
    method UpgradeStored(server: ApiServer, original: TempoStack, fails: Failing, specPatched: bool,
                         statusPatched: bool)
      returns (ok: bool)
      requires original.Value() == server.stored
      modifies server
      ensures server.stored == After(parse, old(server.stored), Attempt(Release(), fails, specPatched, statusPatched))
      ensures ok ==> UpgradeSpec(parse, Release(), fails, old(server.stored)) == Ok(server.stored)
    {
      var upgraded, err := UpgradeCopy(original, fails);
      if err.Some? { return false; }
      if upgraded == original { return true; }
      if Same(upgraded, original) { return true; }
      var operatorVersion, tempoVersion := upgraded.operatorVersion, upgraded.tempoVersion;
      var spec := Spec(upgraded.globalLimits, upgraded.perTenant, upgraded.images, upgraded.tlsEnabled, upgraded.tlsCA,
                       upgraded.prometheusEndpoint, upgraded.rest);
      server.Patch(upgraded, spec, specPatched);
      if !specPatched { return false; }
      upgraded.operatorVersion, upgraded.tempoVersion := operatorVersion, tempoVersion;
      server.PatchStatus(upgraded.operatorVersion, upgraded.tempoVersion, statusPatched);
      return statusPatched;
    }
  }

  /** reflect.DeepEqual. */
  predicate Same(a: TempoStack, b: TempoStack): (same: bool)
    reads a, b
    ensures same <==> a.Value() == b.Value()
  {
    && a.globalLimits == b.globalLimits && a.perTenant == b.perTenant && a.images == b.images
    && a.tlsEnabled == b.tlsEnabled && a.tlsCA == b.tlsCA && a.prometheusEndpoint == b.prometheusEndpoint
    && a.rest == b.rest && a.operatorVersion == b.operatorVersion && a.tempoVersion == b.tempoVersion
  }

  /** Once a step has failed, the steps after it are not run. */
  lemma {:induction false} FailedPrefix(table: seq<Step<Spec>>, i: nat, from: Version, fails: Failing, s: Spec)
    requires i <= |table| && RunSteps(table[..i], from, fails, s).None?
    ensures RunSteps(table, from, fails, s).None?
    decreases |table| - i
  {
    if i == |table| {
      assert table[..i] == table;
    } else {
      assert table[..i + 1][..i] == table[..i];
      FailedPrefix(table, i + 1, from, fails, s);
    }
  }
}
