/** Pods, components and the conditions of a TempoStack (internal/status: conditions.go, components.go, metrics.go,
    status.go, and handleReconcileStatus in tempostack_controller.go). */
module Status {
  import opened Wrappers

  datatype ConditionType = Ready | Failed | Pending | ConfigurationError

  datatype ConditionStatus = True | False | Unknown

  datatype Condition = Condition(kind: ConditionType, status: ConditionStatus, reason: string, message: string,
                                 lastTransition: int)

  const ALL_STATUS_CONDITIONS: seq<ConditionType> := [Ready, Failed, Pending, ConfigurationError]

  ghost predicate DistinctKinds(conds: seq<Condition>) {
    forall i, j :: 0 <= i < j < |conds| ==> conds[i].kind != conds[j].kind
  }

  /** How a reconciliation ended: a configuration error is told apart from all others. */
  datatype ReconcileError = NoError | Misconfigured(reason: string, message: string) | OtherError(message: string)

  // ---------- pods ----------

  datatype Phase = PhaseFailed | PhasePending | PhaseSucceeded | PhaseUnknown | PhaseRunning | OtherPhase

  datatype Pod = Pod(name: string, phase: Phase, containersReady: seq<bool>, terminating: bool)

  datatype PodStatus = PodFailed | PodPending | PodRunning | PodSucceeded | PodReady | PodStatusUnknown

  type PodStatusMap = map<PodStatus, seq<string>>

  predicate AllReady(pod: Pod) { forall i :: 0 <= i < |pod.containersReady| ==> pod.containersReady[i] }

  function StatusOf(pod: Pod): PodStatus {
    match pod.phase
    case PhaseFailed => PodFailed
    case PhasePending => PodPending
    case PhaseSucceeded => PodSucceeded
    case PhaseUnknown => PodStatusUnknown
    case PhaseRunning => if AllReady(pod) then PodReady else PodRunning
    case OtherPhase => PodStatusUnknown
  }

  /** The names under one status, in the order of the pods; terminating pods do not count. */
  function NamesWith(pods: seq<Pod>, status: PodStatus): seq<string> {
    if pods == [] then []
    else
      var front, last := NamesWith(pods[..|pods| - 1], status), pods[|pods| - 1];
      if !last.terminating && StatusOf(last) == status then front + [last.name] else front
  }

  predicate Counts(pods: seq<Pod>, status: PodStatus) {
    exists i :: 0 <= i < |pods| && !pods[i].terminating && StatusOf(pods[i]) == status
  }

  lemma {:induction false} NamesTellCounts(pods: seq<Pod>, status: PodStatus)
    ensures NamesWith(pods, status) != [] <==> Counts(pods, status)
  {
    if pods != [] {
      var n := |pods| - 1;
      NamesTellCounts(pods[..n], status);
      if Counts(pods[..n], status) {
        var i :| 0 <= i < n && !pods[..n][i].terminating && StatusOf(pods[..n][i]) == status;
        assert !pods[i].terminating && StatusOf(pods[i]) == status;
      }
      if Counts(pods, status) && !(!pods[n].terminating && StatusOf(pods[n]) == status) {
        var i :| 0 <= i <= n && !pods[i].terminating && StatusOf(pods[i]) == status;
        assert pods[..n][i] == pods[i];
      }
    }
  }

  /** Under a status are the names of the pods that have it and are not terminating, and no others. */
  lemma {:induction false} NamesAreOfPods(pods: seq<Pod>, status: PodStatus, name: string)
    ensures name in NamesWith(pods, status)
       <==> exists i :: 0 <= i < |pods| && !pods[i].terminating && StatusOf(pods[i]) == status && pods[i].name == name
  {
    if pods != [] {
      var n := |pods| - 1;
      NamesAreOfPods(pods[..n], status, name);
      assert forall i :: 0 <= i < n ==> pods[..n][i] == pods[i];
      if i :| 0 <= i < n && !pods[i].terminating && StatusOf(pods[i]) == status && pods[i].name == name {
        assert pods[..n][i].name == name;
      }
    }
  }

  function Staying(pods: seq<Pod>): nat {
    if pods == [] then 0 else Staying(pods[..|pods| - 1]) + if pods[|pods| - 1].terminating then 0 else 1
  }

  /** Every pod that is not terminating is listed once. */
  lemma {:induction false} EachPodOnce(pods: seq<Pod>)
    ensures |NamesWith(pods, PodFailed)| + |NamesWith(pods, PodPending)| + |NamesWith(pods, PodRunning)|
            + |NamesWith(pods, PodSucceeded)| + |NamesWith(pods, PodReady)| + |NamesWith(pods, PodStatusUnknown)|
         == Staying(pods) <= |pods|
  {
    if pods != [] { EachPodOnce(pods[..|pods| - 1]); }
  }

  method PodStatusOf(pod: Pod) returns (s: PodStatus)
    ensures s == StatusOf(pod)
  {
    match pod.phase {
      case PhaseFailed => return PodFailed;
      case PhasePending => return PodPending;
      case PhaseSucceeded => return PodSucceeded;
      case PhaseUnknown => return PodStatusUnknown;
      case PhaseRunning =>
        for i := 0 to |pod.containersReady|
          invariant forall j :: 0 <= j < i ==> pod.containersReady[j]
        {
          if !pod.containersReady[i] { return PodRunning; }
        }
        return PodReady;
      case OtherPhase => return PodStatusUnknown;
    }
  }

  function NamesIn(psm: PodStatusMap, status: PodStatus): seq<string> {
    if status in psm then psm[status] else []
  }

  /** appendPodStatus. */
  method AppendPodStatus(pods: seq<Pod>) returns (psm: PodStatusMap)
    ensures forall s :: NamesIn(psm, s) == NamesWith(pods, s)
  {
    psm := map[];
    for i := 0 to |pods|
      invariant forall s :: NamesIn(psm, s) == NamesWith(pods[..i], s)
    {
      assert pods[..i + 1][..i] == pods[..i];
      if pods[i].terminating { continue; }
      var status := PodStatusOf(pods[i]);
      psm := psm[status := NamesIn(psm, status) + [pods[i].name]];
    }
    assert pods[..|pods|] == pods;
  }

  // ---------- components ----------

  datatype Component = Compactor | Distributor | Ingester | Querier | QueryFrontend | MetricsGenerator | Gateway

  /** The pods of every component; None where the list call fails. */
  type PodLists = map<Component, Option<seq<Pod>>>

  const COUNTED: set<Component> := {Compactor, Distributor, Ingester, Querier, QueryFrontend, MetricsGenerator}

  /** The order in which the components are looked up; the metrics generator only if it is enabled. */
  function LookedUp(metricsGenerator: bool): seq<Component> {
    [Compactor, Querier, Distributor, QueryFrontend, Ingester, Gateway]
        + if metricsGenerator then [MetricsGenerator] else []
  }

  function PodsOf(lists: PodLists, c: Component): Option<seq<Pod>> {
    if c in lists then lists[c] else Some([])
  }

  predicate LookupFails(lists: PodLists, metricsGenerator: bool) {
    exists c :: c in LookedUp(metricsGenerator) && PodsOf(lists, c).None?
  }

  predicate HasPod(lists: PodLists, metricsGenerator: bool, c: Component, status: PodStatus) {
    c in LookedUp(metricsGenerator) && PodsOf(lists, c).Some? && Counts(PodsOf(lists, c).value, status)
  }

  /** Some counted pod has this status. */
  ghost predicate AnyPod(lists: PodLists, metricsGenerator: bool, status: PodStatus) {
    exists c :: c in COUNTED && HasPod(lists, metricsGenerator, c, status)
  }

  ghost function ActiveCondition(lists: PodLists, metricsGenerator: bool): ConditionType {
    if AnyPod(lists, metricsGenerator, PodFailed) || AnyPod(lists, metricsGenerator, PodStatusUnknown) then Failed
    else if AnyPod(lists, metricsGenerator, PodPending) || AnyPod(lists, metricsGenerator, PodRunning) then Pending
    else Ready
  }

  /** componentsStatus followed by the counting of GetComponentsStatus. */
  method ComponentsCondition(lists: PodLists, metricsGenerator: bool) returns (r: Option<ConditionType>)
    ensures r.None? <==> LookupFails(lists, metricsGenerator)
    ensures r.Some? ==> r.value == ActiveCondition(lists, metricsGenerator)
  {
    var components: map<Component, PodStatusMap> := map[];
    var names := LookedUp(metricsGenerator);
    for i := 0 to |names|
      invariant forall c :: c in components <==> c in names[..i]
      invariant forall c :: c in names[..i] ==>
                  PodsOf(lists, c).Some?
                      && forall s :: NamesIn(components[c], s) == NamesWith(PodsOf(lists, c).value, s)
    {
      assert names[..i + 1] == names[..i] + [names[i]];
      var pods := PodsOf(lists, names[i]);
      if pods.None? {
        assert names[i] in LookedUp(metricsGenerator);
        return None;
      }
      var psm := AppendPodStatus(pods.value);
      components := components[names[i] := psm];
    }
    assert names[..|names|] == names;
    var failed := CountPods(components, lists, metricsGenerator, PodFailed);
    var unknown := CountPods(components, lists, metricsGenerator, PodStatusUnknown);
    if failed != 0 || unknown != 0 { return Some(Failed); }
    var pending := CountPods(components, lists, metricsGenerator, PodPending);
    var running := CountPods(components, lists, metricsGenerator, PodRunning);
    if pending != 0 || running != 0 { return Some(Pending); }
    return Some(Ready);
  }

  function CountIn(components: map<Component, PodStatusMap>, c: Component, status: PodStatus): nat {
    if c in components then |NamesIn(components[c], status)| else 0
  }

  /** The pod status maps collected for the components that were looked up. */
  ghost predicate Collected(components: map<Component, PodStatusMap>, lists: PodLists, metricsGenerator: bool) {
    && (forall c :: c in components <==> c in LookedUp(metricsGenerator))
    && (forall c :: c in components ==>
          PodsOf(lists, c).Some? && forall s :: NamesIn(components[c], s) == NamesWith(PodsOf(lists, c).value, s))
  }

  lemma CountTells(components: map<Component, PodStatusMap>, lists: PodLists, metricsGenerator: bool, c: Component,
                   status: PodStatus)
    requires Collected(components, lists, metricsGenerator)
    ensures CountIn(components, c, status) != 0 <==> HasPod(lists, metricsGenerator, c, status)
  {
    if c in components { NamesTellCounts(PodsOf(lists, c).value, status); }
  }

  /** The sum over the six counted components: the gateway is looked up but not counted. */
  method CountPods(components: map<Component, PodStatusMap>, ghost lists: PodLists, ghost metricsGenerator: bool,
                   status: PodStatus) returns (n: nat)
    requires Collected(components, lists, metricsGenerator)
    ensures n != 0 <==> AnyPod(lists, metricsGenerator, status)
  {
    hide HasPod, CountIn, Collected;
    CountTells(components, lists, metricsGenerator, Compactor, status);
    CountTells(components, lists, metricsGenerator, Distributor, status);
    CountTells(components, lists, metricsGenerator, Ingester, status);
    CountTells(components, lists, metricsGenerator, Querier, status);
    CountTells(components, lists, metricsGenerator, QueryFrontend, status);
    CountTells(components, lists, metricsGenerator, MetricsGenerator, status);
    n := CountIn(components, Compactor, status) + CountIn(components, Distributor, status)
       + CountIn(components, Ingester, status) + CountIn(components, Querier, status)
       + CountIn(components, QueryFrontend, status) + CountIn(components, MetricsGenerator, status);
  }

  /** Up and running, or finished. */
  predicate Healthy(pods: seq<Pod>) {
    forall i :: 0 <= i < |pods| && !pods[i].terminating ==>
      pods[i].phase == PhaseSucceeded || (pods[i].phase == PhaseRunning && AllReady(pods[i]))
  }

  /** All components count but the gateway, which is only looked up, and the metrics generator unless it is enabled. */
  lemma WhoCounts(metricsGenerator: bool)
    ensures forall c :: c in COUNTED && c in LookedUp(metricsGenerator)
                   <==> c != Gateway && (c == MetricsGenerator ==> metricsGenerator)
    ensures forall c :: c in LookedUp(metricsGenerator) <==> (c == MetricsGenerator ==> metricsGenerator)
  {}

  /** The lookup fails exactly if a list call for one of them does. */
  lemma LookupFailsExactly(lists: PodLists, metricsGenerator: bool)
    ensures LookupFails(lists, metricsGenerator)
       <==> exists c :: c in lists && lists[c].None? && (c == MetricsGenerator ==> metricsGenerator)
  {
    WhoCounts(metricsGenerator);
    hide LookedUp;
    if c :| c in lists && lists[c].None? && (c == MetricsGenerator ==> metricsGenerator) {
      assert c in LookedUp(metricsGenerator) && PodsOf(lists, c).None?;
    }
  }

  /** The pods that were found for a component. */
  function Found(lists: PodLists, c: Component): seq<Pod> {
    if c in lists && lists[c].Some? then lists[c].value else []
  }

  /** Some pod that counts has a status of this kind. */
  lemma AnyPodMeans(lists: PodLists, metricsGenerator: bool, status: PodStatus)
    requires !LookupFails(lists, metricsGenerator)
    ensures AnyPod(lists, metricsGenerator, status)
       <==> exists c :: c != Gateway && (c == MetricsGenerator ==> metricsGenerator) && Counts(Found(lists, c), status)
  {
    WhoCounts(metricsGenerator);
    hide LookedUp, COUNTED;
    assert forall c :: c in LookedUp(metricsGenerator) ==> PodsOf(lists, c) == Some(Found(lists, c));
    if c :| c != Gateway && (c == MetricsGenerator ==> metricsGenerator) && Counts(Found(lists, c), status) {
      assert HasPod(lists, metricsGenerator, c, status);
    }
  }

  lemma HealthyMeans(pods: seq<Pod>)
    ensures Healthy(pods)
       <==> !Counts(pods, PodFailed) && !Counts(pods, PodStatusUnknown) && !Counts(pods, PodPending)
            && !Counts(pods, PodRunning)
  {
    if !Counts(pods, PodFailed) && !Counts(pods, PodStatusUnknown) && !Counts(pods, PodPending)
       && !Counts(pods, PodRunning)
    {
      forall i | 0 <= i < |pods| && !pods[i].terminating
        ensures pods[i].phase == PhaseSucceeded || (pods[i].phase == PhaseRunning && AllReady(pods[i]))
      {
        assert Counts(pods, StatusOf(pods[i]));
      }
    }
  }

  /** Ready is the active condition exactly when every pod of the components that count which is not terminating is
      ready or has succeeded. */
  lemma ReadyMeansHealthy(lists: PodLists, metricsGenerator: bool)
    requires !LookupFails(lists, metricsGenerator)
    ensures ActiveCondition(lists, metricsGenerator) == Ready
       <==> forall c :: c != Gateway && (c == MetricsGenerator ==> metricsGenerator) ==> Healthy(Found(lists, c))
  {
    AnyPodMeans(lists, metricsGenerator, PodFailed);
    AnyPodMeans(lists, metricsGenerator, PodStatusUnknown);
    AnyPodMeans(lists, metricsGenerator, PodPending);
    AnyPodMeans(lists, metricsGenerator, PodRunning);
    hide AnyPod, Counts, Healthy, Found, LookupFails;
    forall c { HealthyMeans(Found(lists, c)); }
  }

  predicate Broken(pods: seq<Pod>) {
    exists i :: 0 <= i < |pods| && !pods[i].terminating && pods[i].phase in {PhaseFailed, PhaseUnknown, OtherPhase}
  }

  lemma BrokenMeans(pods: seq<Pod>)
    ensures Broken(pods) <==> Counts(pods, PodFailed) || Counts(pods, PodStatusUnknown)
  {
    if i :| 0 <= i < |pods| && !pods[i].terminating && pods[i].phase in {PhaseFailed, PhaseUnknown, OtherPhase} {
      assert Counts(pods, StatusOf(pods[i]));
    }
  }

  /** Failed comes before Pending. */
  lemma FailedMeansBroken(lists: PodLists, metricsGenerator: bool)
    requires !LookupFails(lists, metricsGenerator)
    ensures ActiveCondition(lists, metricsGenerator) == Failed
       <==> exists c :: c != Gateway && (c == MetricsGenerator ==> metricsGenerator) && Broken(Found(lists, c))
  {
    AnyPodMeans(lists, metricsGenerator, PodFailed);
    AnyPodMeans(lists, metricsGenerator, PodStatusUnknown);
    hide AnyPod, Counts, Broken, Found, LookupFails;
    forall c { BrokenMeans(Found(lists, c)); }
  }

  /** Nothing the gateway's pods do changes the active condition. */
  lemma GatewayDoesNotCount(lists: PodLists, pods: seq<Pod>, metricsGenerator: bool)
    ensures ActiveCondition(lists[Gateway := Some(pods)], metricsGenerator) == ActiveCondition(lists, metricsGenerator)
  {
    var other := lists[Gateway := Some(pods)];
    assert forall c, s :: c in COUNTED ==>
        HasPod(other, metricsGenerator, c, s) == HasPod(lists, metricsGenerator, c, s);
    assert forall s :: AnyPod(other, metricsGenerator, s) <==> AnyPod(lists, metricsGenerator, s);
  }
}
