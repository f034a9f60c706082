/** The conditions of a TempoMonolithic over all reconciliations (internal/status/monolithic.go). */
module Monolithic {
  import opened Wrappers
  import opened Status
  import Conditions

  /** A condition before it is stored may lack a transition time. */
  datatype Draft = Draft(kind: ConditionType, status: ConditionStatus, reason: string, message: string,
                         lastTransition: Option<int>)

  // ---------- the pod status map ----------

  /** A StatefulSet of the instance: its name and whether all wanted replicas are ready. */
  datatype StatefulSet = StatefulSet(name: string, readyReplicas: int, replicas: Option<int>)

  predicate Lagging(s: StatefulSet) { s.readyReplicas < if s.replicas.Some? then s.replicas.value else 1 }

  datatype Lookup = Lookup(sets: Option<seq<StatefulSet>>, pods: Option<seq<Pod>>)

  /** Terminating pods count here. */
  function PodNames(pods: seq<Pod>, status: PodStatus): seq<string> {
    if pods == [] then []
    else
      var front, last := PodNames(pods[..|pods| - 1], status), pods[|pods| - 1];
      if StatusOf(last) == status then front + [last.name] else front
  }

  predicate AnyLagging(sets: seq<StatefulSet>) { exists i :: 0 <= i < |sets| && Lagging(sets[i]) }

  predicate Holding(pods: seq<Pod>, status: PodStatus) { exists i :: 0 <= i < |pods| && StatusOf(pods[i]) == status }

  lemma {:induction false} NamesTellHolding(pods: seq<Pod>, status: PodStatus)
    ensures PodNames(pods, status) != [] <==> Holding(pods, status)
  {
    if pods != [] {
      var n := |pods| - 1;
      NamesTellHolding(pods[..n], status);
      if Holding(pods[..n], status) {
        var i :| 0 <= i < n && StatusOf(pods[..n][i]) == status;
        assert StatusOf(pods[i]) == status;
      }
      if i :| 0 <= i <= n && StatusOf(pods[i]) == status {
        assert i < n ==> pods[..n][i] == pods[i];
      }
    }
  }

  /** Under a status are the names of the pods that have it, and no others. */
  lemma {:induction false} PodNamesAreOfPods(pods: seq<Pod>, status: PodStatus, name: string)
    ensures name in PodNames(pods, status)
       <==> exists i :: 0 <= i < |pods| && StatusOf(pods[i]) == status && pods[i].name == name
  {
    if pods != [] {
      var n := |pods| - 1;
      PodNamesAreOfPods(pods[..n], status, name);
      assert forall i :: 0 <= i < n ==> pods[..n][i] == pods[i];
      if i :| 0 <= i < n && StatusOf(pods[i]) == status && pods[i].name == name {
        assert pods[..n][i].name == name;
      }
    }
  }

  /** Every pod is listed once. */
  lemma {:induction false} EachPodOnce(pods: seq<Pod>)
    ensures |PodNames(pods, PodFailed)| + |PodNames(pods, PodPending)| + |PodNames(pods, PodRunning)|
            + |PodNames(pods, PodSucceeded)| + |PodNames(pods, PodReady)| + |PodNames(pods, PodStatusUnknown)| == |pods|
  {
    if pods != [] { EachPodOnce(pods[..|pods| - 1]); }
  }

  function NamesByStatus(pods: seq<Pod>): PodStatusMap {
    map status: PodStatus | PodNames(pods, status) != [] :: PodNames(pods, status)
  }

  function FirstLagging(sets: seq<StatefulSet>): StatefulSet
    requires AnyLagging(sets)
  {
    if Lagging(sets[0]) then sets[0]
    else
      assert exists i :: 0 <= i < |sets[1..]| && Lagging(sets[1..][i]) by {
        var i :| 0 <= i < |sets| && Lagging(sets[i]);
        assert sets[1..][i - 1] == sets[i];
      }
      FirstLagging(sets[1..])
  }

  /** What is learned about the pods; nothing if a list call fails. */
  function PodStatuses(l: Lookup): Option<PodStatusMap> {
    if l.sets.None? then None
    else if AnyLagging(l.sets.value) then Some(map[PodPending := [FirstLagging(l.sets.value).name]])
    else if l.pods.None? then None
    else Some(NamesByStatus(l.pods.value))
  }

  lemma NoneLaggingAfter(sets: seq<StatefulSet>)
    requires sets != []
    ensures AnyLagging(sets[1..]) ==> AnyLagging(sets)
  {
    if i :| 0 <= i < |sets[1..]| && Lagging(sets[1..][i]) { assert Lagging(sets[i + 1]); }
  }

  lemma {:induction false} FirstLaggingAt(sets: seq<StatefulSet>, i: nat)
    requires i < |sets| && Lagging(sets[i]) && !AnyLagging(sets[..i])
    ensures AnyLagging(sets) && FirstLagging(sets) == sets[i]
  {
    if i > 0 {
      assert !Lagging(sets[0]) by { assert sets[..i][0] == sets[0]; }
      assert sets[1..][..i - 1] == sets[..i][1..];
      NoneLaggingAfter(sets[..i]);
      FirstLaggingAt(sets[1..], i - 1);
    }
  }

  /** getStatefulSetStatus: the first lagging StatefulSet is reported as a pending pod, and no pod is looked at. */
  method GetStatefulSetStatus(l: Lookup) returns (psm: Option<PodStatusMap>)
    ensures psm == PodStatuses(l)
  {
    if l.sets.None? { return None; }
    var sets := l.sets.value;
    for i := 0 to |sets|
      invariant forall j :: 0 <= j < i ==> !Lagging(sets[j])
    {
      if Lagging(sets[i]) {
        FirstLaggingAt(sets, i);
        return Some(map[PodPending := [sets[i].name]]);
      }
    }
    if l.pods.None? { return None; }
    var pods := l.pods.value;
    var res: PodStatusMap := map[];
    for i := 0 to |pods|
      invariant res == NamesByStatus(pods[..i])
    {
      assert pods[..i + 1][..i] == pods[..i];
      var status := PodStatusOf(pods[i]);
      res := res[status := NamesIn(res, status) + [pods[i].name]];
      assert forall s :: PodNames(pods[..i + 1], s) ==
                         if s == status then PodNames(pods[..i], s) + [pods[i].name] else PodNames(pods[..i], s);
    }
    assert pods[..|pods|] == pods;
    return Some(res);
  }

  /** The pod status map kept in the status: empty if a list call failed. */
  function StatusMap(l: Lookup): PodStatusMap {
    if PodStatuses(l).None? then map[] else PodStatuses(l).value
  }

  /** getComponentsStatus; the error is only logged. */
  method GetComponentsStatus(l: Lookup) returns (psm: PodStatusMap, err: bool)
    ensures psm == StatusMap(l)
    ensures err <==> PodStatuses(l).None?
  {
    var tempo := GetStatefulSetStatus(l);
    if tempo.None? { return map[], true; }
    return tempo.value, false;
  }

  // ---------- conditions ----------

  predicate Has(conds: seq<Condition>, kind: ConditionType) {
    exists i :: 0 <= i < |conds| && conds[i].kind == kind
  }

  /** meta.FindStatusCondition: the first of the kind. */
  function Find(conds: seq<Condition>, kind: ConditionType): (k: nat)
    requires Has(conds, kind)
    ensures k < |conds| && conds[k].kind == kind && forall i :: 0 <= i < k ==> conds[i].kind != kind
  {
    if conds[0].kind == kind then 0
    else
      var i :| 0 <= i < |conds| && conds[i].kind == kind;
      assert conds[1..][i - 1].kind == kind;
      1 + Find(conds[1..], kind)
  }

  /** meta.SetStatusCondition, an assumed contract: the transition time moves only with the status, and then to the
      draft's time if it has one. */
  function SetStatusCondition(conds: seq<Condition>, d: Draft, now: int): seq<Condition> {
    var time := if d.lastTransition.Some? then d.lastTransition.value else now;
    if !Has(conds, d.kind) then conds + [Condition(d.kind, d.status, d.reason, d.message, time)]
    else
      var k := Find(conds, d.kind);
      conds[k := Condition(d.kind, d.status, d.reason, d.message,
                           if conds[k].status != d.status then time else conds[k].lastTransition)]
  }

  /** resetCondition copies the existing condition, its transition time included. */
  function ResetCondition(conds: seq<Condition>, kind: ConditionType, defaultReason: string): Draft {
    if Has(conds, kind) then
      var c := conds[Find(conds, kind)];
      Draft(kind, False, c.reason, c.message, Some(c.lastTransition))
    else Draft(kind, False, defaultReason, "", None)
  }

  function ToStatus(active: bool): ConditionStatus { if active then True else False }

  predicate HasPods(psm: PodStatusMap, status: PodStatus) { NamesIn(psm, status) != [] }

  function PendingDraft(psm: PodStatusMap): Draft {
    Draft(Pending, ToStatus(HasPods(psm, PodPending) || HasPods(psm, PodRunning)), "PendingComponents",
          "Some Tempo components are pending on dependencies", None)
  }

  function ConfigurationDraft(conds: seq<Condition>, e: ReconcileError): Draft {
    if e.Misconfigured? then Draft(ConfigurationError, True, e.reason, e.message, None)
    else ResetCondition(conds, ConfigurationError, "InvalidStorageConfig")
  }

  function FailedDraft(conds: seq<Condition>, psm: PodStatusMap, e: ReconcileError): Draft {
    if e.OtherError? then Draft(Failed, True, "FailedReconciliation", e.message, None)
    else if HasPods(psm, PodFailed) then Draft(Failed, True, "FailedComponents", "Some Tempo components failed", None)
    else ResetCondition(conds, Failed, "FailedComponents")
  }

  function ReadyDraft(conds: seq<Condition>, psm: PodStatusMap, e: ReconcileError): Draft {
    Draft(Ready,
          ToStatus(PendingDraft(psm).status == False && FailedDraft(conds, psm, e).status == False
                   && ConfigurationDraft(conds, e).status == False),
          "Ready", "All components are operational", None)
  }

  function DraftFor(conds: seq<Condition>, psm: PodStatusMap, e: ReconcileError, kind: ConditionType): Draft {
    match kind
    case Pending => PendingDraft(psm)
    case ConfigurationError => ConfigurationDraft(conds, e)
    case Failed => FailedDraft(conds, psm, e)
    case Ready => ReadyDraft(conds, psm, e)
  }

  function UpdatedConditions(conds: seq<Condition>, psm: PodStatusMap, e: ReconcileError, now: int): seq<Condition> {
    var a := SetStatusCondition(conds, PendingDraft(psm), now);
    var b := SetStatusCondition(a, ConfigurationDraft(conds, e), now);
    var c := SetStatusCondition(b, FailedDraft(conds, psm, e), now);
    SetStatusCondition(c, ReadyDraft(conds, psm, e), now)
  }

  /** The slice behind the pointer that updateConditions rewrites. */
  class MonolithicStatus {
    var conditions: seq<Condition>

    constructor ()
      ensures conditions == []
    {
      conditions := [];
    }

    /** updateConditions: the drafts are made from the conditions as they were, then set one after the other. */
    method UpdateConditions(psm: PodStatusMap, e: ReconcileError, now: int) returns (terminal: bool)
      modifies this
      ensures conditions == UpdatedConditions(old(conditions), psm, e, now)
      ensures terminal <==> e.Misconfigured?
    {
      hide SetStatusCondition, ResetCondition, NamesIn;
      terminal := false;
      var pendingActive := |NamesIn(psm, PodPending)| > 0 || |NamesIn(psm, PodRunning)| > 0;
      var pending := Draft(Pending, ToStatus(pendingActive), "PendingComponents",
                           "Some Tempo components are pending on dependencies", None);
      var configurationError;
      if e.Misconfigured? {
        configurationError := Draft(ConfigurationError, True, e.reason, e.message, None);
        terminal := true;
      } else {
        configurationError := ResetCondition(conditions, ConfigurationError, "InvalidStorageConfig");
      }
      var failed;
      if e.OtherError? {
        failed := Draft(Failed, True, "FailedReconciliation", e.message, None);
      } else if |NamesIn(psm, PodFailed)| > 0 {
        failed := Draft(Failed, True, "FailedComponents", "Some Tempo components failed", None);
      } else {
        failed := ResetCondition(conditions, Failed, "FailedComponents");
      }
      var readyActive := pending.status == False && failed.status == False && configurationError.status == False;
      var ready := Draft(Ready, ToStatus(readyActive), "Ready", "All components are operational", None);
      conditions := SetStatusCondition(conditions, pending, now);
      conditions := SetStatusCondition(conditions, configurationError, now);
      conditions := SetStatusCondition(conditions, failed, now);
      conditions := SetStatusCondition(conditions, ready, now);
    }
  }

  /** The resource as stored, and the gauges exported for it. */
  class Reconciler {
    var conditions: seq<Condition>
    const gauges: Conditions.Gauges

    constructor ()
      ensures conditions == [] && gauges.values == map[] && fresh(gauges)
    {
      conditions := [];
      gauges := new Conditions.Gauges();
    }

    /** HandleTempoMonolithicStatus works on a copy of the status; the gauges are set before the copy is written, which
        may fail. */
    method HandleStatus(l: Lookup, e: ReconcileError, now: int, written: bool) returns (terminal: bool)
      modifies this, gauges
      ensures var r := UpdatedConditions(old(conditions), StatusMap(l), e, now);
              gauges.values == Conditions.GaugesFor(r) && conditions == if written then r else old(conditions)
      ensures terminal <==> e.Misconfigured?
    {
      var status := new MonolithicStatus();
      status.conditions := conditions;
      var psm, _ := GetComponentsStatus(l);
      terminal := status.UpdateConditions(psm, e, now);
      gauges.UpdateMetrics(status.conditions);
      if written { conditions := status.conditions; }
    }
  }

  // ---------- what one update does to each condition ----------

  function Get(conds: seq<Condition>, kind: ConditionType): Option<Condition> {
    if Has(conds, kind) then Some(conds[Find(conds, kind)]) else None
  }

  /** What becomes of a stored condition when a draft is set. */
  function Merged(old_: Option<Condition>, d: Draft, now: int): Condition {
    var time := if d.lastTransition.Some? then d.lastTransition.value else now;
    Condition(d.kind, d.status, d.reason, d.message,
              if old_.Some? && old_.value.status == d.status then old_.value.lastTransition else time)
  }

  lemma SetFacts(conds: seq<Condition>, d: Draft, now: int)
    requires DistinctKinds(conds)
    ensures var r := SetStatusCondition(conds, d, now);
            && DistinctKinds(r)
            && Get(r, d.kind) == Some(Merged(Get(conds, d.kind), d, now))
            && forall kind :: kind != d.kind ==> Get(r, kind) == Get(conds, kind)
  {
    var r := SetStatusCondition(conds, d, now);
    var at := if Has(conds, d.kind) then Find(conds, d.kind) else |conds|;
    assert r[at].kind == d.kind;
    forall kind | kind != d.kind ensures Get(r, kind) == Get(conds, kind) {
      if Has(conds, kind) { assert r[Find(conds, kind)].kind == kind; }
      if Has(r, kind) { assert conds[Find(r, kind)].kind == kind; }
    }
  }

  /** Setting one draft of each kind, in the order of the code. */
  lemma SetFour(conds: seq<Condition>, pending: Draft, configuration: Draft, failed: Draft, ready: Draft, now: int)
    requires DistinctKinds(conds)
    requires pending.kind == Pending && configuration.kind == ConfigurationError && failed.kind == Failed
    requires ready.kind == Ready
    ensures var a := SetStatusCondition(conds, pending, now);
            var b := SetStatusCondition(a, configuration, now);
            var c := SetStatusCondition(b, failed, now);
            var r := SetStatusCondition(c, ready, now);
            && DistinctKinds(r)
            && Get(r, Pending) == Some(Merged(Get(conds, Pending), pending, now))
            && Get(r, ConfigurationError) == Some(Merged(Get(conds, ConfigurationError), configuration, now))
            && Get(r, Failed) == Some(Merged(Get(conds, Failed), failed, now))
            && Get(r, Ready) == Some(Merged(Get(conds, Ready), ready, now))
  {
    hide SetStatusCondition, DistinctKinds, Get, Merged;
    var a := SetStatusCondition(conds, pending, now);
    var b := SetStatusCondition(a, configuration, now);
    var c := SetStatusCondition(b, failed, now);
    SetFacts(conds, pending, now);
    SetFacts(a, configuration, now);
    SetFacts(b, failed, now);
    SetFacts(c, ready, now);
  }

  /** After an update each of the four conditions is the merger of its draft with what was stored before. */
  lemma UpdateFacts(conds: seq<Condition>, psm: PodStatusMap, e: ReconcileError, now: int)
    requires DistinctKinds(conds)
    ensures var r := UpdatedConditions(conds, psm, e, now);
            && DistinctKinds(r)
            && forall kind :: Get(r, kind) == Some(Merged(Get(conds, kind), DraftFor(conds, psm, e, kind), now))
  {
    hide SetStatusCondition, DistinctKinds, Get, Merged;
    SetFour(conds, PendingDraft(psm), ConfigurationDraft(conds, e), FailedDraft(conds, psm, e),
            ReadyDraft(conds, psm, e), now);
    hide PendingDraft, ConfigurationDraft, FailedDraft, ReadyDraft;
    var r := UpdatedConditions(conds, psm, e, now);
    forall kind ensures Get(r, kind) == Some(Merged(Get(conds, kind), DraftFor(conds, psm, e, kind), now)) {
      match kind
      case Pending =>
      case ConfigurationError =>
      case Failed =>
      case Ready =>
    }
  }

  // ---------- all runs ----------

  datatype Update = Update(psm: PodStatusMap, error: ReconcileError, now: int)

  function Run(conds: seq<Condition>, updates: seq<Update>): seq<Condition>
    decreases |updates|
  {
    if updates == [] then conds
    else Run(UpdatedConditions(conds, updates[0].psm, updates[0].error, updates[0].now), updates[1..])
  }

  /** Each of the four kinds occurs exactly once. */
  ghost predicate Complete(conds: seq<Condition>) {
    |conds| == 4 && DistinctKinds(conds) && forall kind :: Has(conds, kind)
  }

  ghost predicate ReadyIffOthersFalse(conds: seq<Condition>) {
    Complete(conds) &&
    (Get(conds, Ready).value.status == True <==>
       forall kind :: kind != Ready ==> Get(conds, kind).value.status == False)
  }

  function KindsOf(conds: seq<Condition>): set<ConditionType> { set c | c in conds :: c.kind }

  lemma {:induction false} KindsCounted(conds: seq<Condition>)
    requires DistinctKinds(conds)
    ensures |KindsOf(conds)| == |conds|
  {
    if conds != [] {
      var front, last := conds[..|conds| - 1], conds[|conds| - 1];
      KindsCounted(front);
      assert conds == front + [last];
      assert KindsOf(conds) == KindsOf(front) + {last.kind};
    }
  }

  /** Distinct conditions of all four kinds are four. */
  lemma FourKinds(conds: seq<Condition>)
    requires DistinctKinds(conds) && forall kind :: Has(conds, kind)
    ensures Complete(conds)
  {
    KindsCounted(conds);
    var all := {Ready, Failed, Pending, ConfigurationError};
    forall kind: ConditionType ensures kind in KindsOf(conds) && kind in all {
      assert conds[Find(conds, kind)] in conds;
      match kind case Ready => case Failed => case Pending => case ConfigurationError =>
    }
    assert KindsOf(conds) == all;
  }

  lemma UpdateCompletes(conds: seq<Condition>, u: Update)
    requires DistinctKinds(conds)
    ensures ReadyIffOthersFalse(UpdatedConditions(conds, u.psm, u.error, u.now))
  {
    UpdateFacts(conds, u.psm, u.error, u.now);
    var r := UpdatedConditions(conds, u.psm, u.error, u.now);
    hide UpdatedConditions, DistinctKinds, Find;
    forall kind ensures Has(r, kind) { assert Get(r, kind).Some?; }
    FourKinds(r);
    DraftsOpposed(conds, u.psm, u.error);
    hide DraftFor, Get, Has, Complete;
    OthersFalse(r);
  }

  lemma DraftsOpposed(conds: seq<Condition>, psm: PodStatusMap, e: ReconcileError)
    ensures DraftFor(conds, psm, e, Ready).status == True
       <==> DraftFor(conds, psm, e, Pending).status == False && DraftFor(conds, psm, e, Failed).status == False
            && DraftFor(conds, psm, e, ConfigurationError).status == False
  {
    hide PendingDraft, FailedDraft, ConfigurationDraft;
  }

  lemma OthersFalse(r: seq<Condition>)
    requires Complete(r)
    ensures (forall kind :: kind != Ready ==> Get(r, kind).value.status == False)
       <==> Get(r, Pending).value.status == False && Get(r, Failed).value.status == False
            && Get(r, ConfigurationError).value.status == False
  {
    hide Find;
    assert forall kind :: Get(r, kind).Some?;
  }

  /** Over every run from an empty list, after the first update each of the four kinds occurs exactly once, and Ready is
      true exactly when the other three are false. */
  lemma {:induction false} MonolithicConditions(conds: seq<Condition>, updates: seq<Update>)
    requires DistinctKinds(conds) && updates != []
    ensures ReadyIffOthersFalse(Run(conds, updates))
    decreases |updates|
  {
    var next := UpdatedConditions(conds, updates[0].psm, updates[0].error, updates[0].now);
    UpdateCompletes(conds, updates[0]);
    if |updates| > 1 {
      MonolithicConditions(next, updates[1..]);
    } else {
      assert Run(next, updates[1..]) == next;
    }
  }

  /** A transition time changes only with the status; and when the status changes, it becomes the time of the update
      exactly unless the condition is a Failed or ConfigurationError one being reset, which keeps its old time. */
  lemma TransitionTimes(conds: seq<Condition>, u: Update, kind: ConditionType)
    requires DistinctKinds(conds) && Has(conds, kind)
    ensures var before := Get(conds, kind).value;
            var r := UpdatedConditions(conds, u.psm, u.error, u.now);
            && Has(r, kind)
            && var after := Get(r, kind).value;
               && (before.status == after.status ==> after.lastTransition == before.lastTransition)
               && (before.status != after.status ==>
                     after.lastTransition ==
                       if (kind == Failed || kind == ConfigurationError) && after.status == False
                       then before.lastTransition else u.now)
  {
    UpdateFacts(conds, u.psm, u.error, u.now);
    assert Get(UpdatedConditions(conds, u.psm, u.error, u.now), kind).Some?;
  }

  predicate Holds(conds: seq<Condition>, kind: ConditionType) {
    Has(conds, kind) && Get(conds, kind).value.status == True
  }

  lemma HoldsAsDrafted(conds: seq<Condition>, u: Update, kind: ConditionType)
    requires DistinctKinds(conds)
    ensures Holds(UpdatedConditions(conds, u.psm, u.error, u.now), kind)
       <==> DraftFor(conds, u.psm, u.error, kind).status == True
  {
    UpdateFacts(conds, u.psm, u.error, u.now);
    hide UpdatedConditions, DraftFor, DistinctKinds;
    assert Get(UpdatedConditions(conds, u.psm, u.error, u.now), kind).Some?;
  }

  lemma DraftMeanings(conds: seq<Condition>, psm: PodStatusMap, e: ReconcileError)
    ensures ConfigurationDraft(conds, e).status == True <==> e.Misconfigured?
    ensures FailedDraft(conds, psm, e).status == True <==> e.OtherError? || HasPods(psm, PodFailed)
    ensures PendingDraft(psm).status == True <==> HasPods(psm, PodPending) || HasPods(psm, PodRunning)
    ensures ReadyDraft(conds, psm, e).status == True
       <==> e.NoError? && !HasPods(psm, PodFailed) && !HasPods(psm, PodPending) && !HasPods(psm, PodRunning)
  {
    hide HasPods, Find, Has;
  }

  /** What each condition means after an update. An instance of which nothing could be looked up, or whose pods are in
      an unknown phase, is called ready. */
  lemma ConditionMeanings(conds: seq<Condition>, u: Update)
    requires DistinctKinds(conds)
    ensures var r := UpdatedConditions(conds, u.psm, u.error, u.now);
            && (Holds(r, ConfigurationError) <==> u.error.Misconfigured?)
            && (Holds(r, Failed) <==> u.error.OtherError? || HasPods(u.psm, PodFailed))
            && (Holds(r, Pending) <==> HasPods(u.psm, PodPending) || HasPods(u.psm, PodRunning))
            && (Holds(r, Ready) <==> u.error.NoError? && !HasPods(u.psm, PodFailed) && !HasPods(u.psm, PodPending)
                                     && !HasPods(u.psm, PodRunning))
  {
    hide UpdatedConditions, HasPods, Holds, DistinctKinds;
    HoldsAsDrafted(conds, u, ConfigurationError);
    HoldsAsDrafted(conds, u, Failed);
    HoldsAsDrafted(conds, u, Pending);
    HoldsAsDrafted(conds, u, Ready);
    DraftMeanings(conds, u.psm, u.error);
    hide ConfigurationDraft, FailedDraft, PendingDraft, ReadyDraft;
  }

  /** Which pods are held against the instance, in terms of the lookup. */
  predicate Shows(l: Lookup, status: PodStatus) {
    l.sets.Some? &&
    if AnyLagging(l.sets.value) then status == PodPending else l.pods.Some? && Holding(l.pods.value, status)
  }

  lemma StatusMapShows(l: Lookup, status: PodStatus)
    ensures HasPods(StatusMap(l), status) <==> Shows(l, status)
  {
    if l.pods.Some? { NamesTellHolding(l.pods.value, status); }
  }

  /** What keeps an instance from being ready: a StatefulSet that lags, or a pod that has failed, is pending, or runs
      with a container that is not ready; terminating pods count as well. */
  predicate Unready(pod: Pod) {
    pod.phase in {PhaseFailed, PhasePending} || (pod.phase == PhaseRunning && !AllReady(pod))
  }

  /** The conditions after a reconciliation, in terms of what the API server returned. An instance of which nothing
      could be looked up, or whose pods are in an unknown phase, is called ready. */
  lemma LookupMeanings(conds: seq<Condition>, l: Lookup, e: ReconcileError, now: int)
    requires DistinctKinds(conds)
    ensures var r := UpdatedConditions(conds, StatusMap(l), e, now);
            var lagging := l.sets.Some? && AnyLagging(l.sets.value);
            var pods := if l.sets.None? || lagging || l.pods.None? then [] else l.pods.value;
            && (Holds(r, ConfigurationError) <==> e.Misconfigured?)
            && (Holds(r, Failed) <==> e.OtherError? || Holding(pods, PodFailed))
            && (Holds(r, Pending) <==> lagging || Holding(pods, PodPending) || Holding(pods, PodRunning))
            && (Holds(r, Ready) <==> e.NoError? && !lagging && forall i :: 0 <= i < |pods| ==> !Unready(pods[i]))
  {
    var psm := StatusMap(l);
    ConditionMeanings(conds, Update(psm, e, now));
    StatusMapShows(l, PodFailed);
    StatusMapShows(l, PodPending);
    StatusMapShows(l, PodRunning);
    hide UpdatedConditions, HasPods, Holds, DistinctKinds, StatusMap;
    UnreadyPods(if l.pods.Some? then l.pods.value else []);
  }

  lemma GaugeShows(conds: seq<Condition>, kind: ConditionType)
    requires DistinctKinds(conds)
    ensures kind in Conditions.GaugesFor(conds)
    ensures Conditions.GaugesFor(conds)[kind] == if Holds(conds, kind) then 1 else 0
  {
    if i :| 0 <= i < |conds| && conds[i].kind == kind && conds[i].status == True { assert Has(conds, kind); }
    if Holds(conds, kind) { assert conds[Find(conds, kind)].status == True; }
  }

  /** The gauges after a reconciliation, in the same terms: one for each of the four kinds. */
  lemma GaugesTell(conds: seq<Condition>, l: Lookup, e: ReconcileError, now: int)
    requires DistinctKinds(conds)
    ensures var g := Conditions.GaugesFor(UpdatedConditions(conds, StatusMap(l), e, now));
            var lagging := l.sets.Some? && AnyLagging(l.sets.value);
            var pods := if l.sets.None? || lagging || l.pods.None? then [] else l.pods.value;
            && (forall kind :: kind in g && g[kind] <= 1)
            && (g[ConfigurationError] == 1 <==> e.Misconfigured?)
            && (g[Failed] == 1 <==> e.OtherError? || Holding(pods, PodFailed))
            && (g[Pending] == 1 <==> lagging || Holding(pods, PodPending) || Holding(pods, PodRunning))
            && (g[Ready] == 1 <==> e.NoError? && !lagging && forall i :: 0 <= i < |pods| ==> !Unready(pods[i]))
  {
    var r := UpdatedConditions(conds, StatusMap(l), e, now);
    UpdateFacts(conds, StatusMap(l), e, now);
    LookupMeanings(conds, l, e, now);
    hide UpdatedConditions, DistinctKinds, Holds, StatusMap, Holding, Unready, AnyLagging, Conditions.GaugesFor;
    forall kind ensures kind in Conditions.GaugesFor(r) && Conditions.GaugesFor(r)[kind] <= 1 { GaugeShows(r, kind); }
    GaugeShows(r, ConfigurationError);
    GaugeShows(r, Failed);
    GaugeShows(r, Pending);
    GaugeShows(r, Ready);
  }

  /** As many replicas are ready as are wanted, which is one if no number is given. */
  predicate Scaled(s: StatefulSet) {
    match s.replicas
    case Some(wanted) => s.readyReplicas >= wanted
    case None => s.readyReplicas >= 1
  }

  lemma LaggingMeans(sets: seq<StatefulSet>)
    ensures AnyLagging(sets) <==> exists i :: 0 <= i < |sets| && !Scaled(sets[i])
  {
    if i :| 0 <= i < |sets| && !Scaled(sets[i]) { assert Lagging(sets[i]); }
  }

  /** The first StatefulSet with fewer ready replicas than wanted stands for all that is known: its name is listed as
      the one pending pod. */
  lemma LaggingIsNamed(l: Lookup, i: nat)
    requires l.sets.Some? && i < |l.sets.value| && !Scaled(l.sets.value[i])
    requires forall j :: 0 <= j < i ==> Scaled(l.sets.value[j])
    ensures StatusMap(l) == map[PodPending := [l.sets.value[i].name]]
  {
    var before := l.sets.value[..i];
    LaggingMeans(before);
    FirstLaggingAt(l.sets.value, i);
  }

  /** The message of an error is in the condition that it makes true. */
  lemma ErrorIsTold(conds: seq<Condition>, psm: PodStatusMap, e: ReconcileError, now: int)
    requires DistinctKinds(conds) && !e.NoError?
    ensures var r := UpdatedConditions(conds, psm, e, now);
            var kind := if e.Misconfigured? then ConfigurationError else Failed;
            && Has(r, kind)
            && var c := Get(r, kind).value;
               c.status == True && c.message == e.message
               && c.reason == if e.Misconfigured? then e.reason else "FailedReconciliation"
  {
    UpdateFacts(conds, psm, e, now);
    var kind := if e.Misconfigured? then ConfigurationError else Failed;
    assert Get(UpdatedConditions(conds, psm, e, now), kind).Some?;
  }

  /** The words of the conditions that pods decide. */
  lemma ComponentsAreTold(conds: seq<Condition>, psm: PodStatusMap, e: ReconcileError, now: int)
    requires DistinctKinds(conds)
    ensures var r := UpdatedConditions(conds, psm, e, now);
            && Has(r, Ready) && Has(r, Pending) && Has(r, Failed)
            && Get(r, Ready).value.reason == "Ready" && Get(r, Pending).value.reason == "PendingComponents"
            && (!e.OtherError? && HasPods(psm, PodFailed) ==>
                  Get(r, Failed).value.reason == "FailedComponents"
                  && Get(r, Failed).value.message == "Some Tempo components failed")
            && Get(r, Ready).value.message == "All components are operational"
            && Get(r, Pending).value.message == "Some Tempo components are pending on dependencies"
  {
    UpdateFacts(conds, psm, e, now);
    var r := UpdatedConditions(conds, psm, e, now);
    assert Get(r, Ready).Some? && Get(r, Pending).Some? && Get(r, Failed).Some?;
  }

  lemma UnreadyPods(pods: seq<Pod>)
    ensures !Holding(pods, PodFailed) && !Holding(pods, PodPending) && !Holding(pods, PodRunning)
       <==> forall i :: 0 <= i < |pods| ==> !Unready(pods[i])
  {
    if i :| 0 <= i < |pods| && Unready(pods[i]) {
      assert Holding(pods, StatusOf(pods[i]));
    }
  }
}
