/** The conditions of a TempoStack over all reconciliations (internal/status/conditions.go, metrics.go, status.go and
    handleReconcileStatus in internal/controller/tempo/tempostack_controller.go). */
module Conditions {
  import opened Wrappers
  import opened Status
  import opened Upgrade

  // ---------- specification of UpdateCondition ----------

  /** The list already says it, in the same words. */
  predicate Says(conds: seq<Condition>, c: Condition) {
    exists i :: 0 <= i < |conds| && conds[i].kind == c.kind && conds[i].reason == c.reason
                && conds[i].message == c.message && conds[i].status == True
  }

  function Reset(conds: seq<Condition>, now: int): seq<Condition> {
    seq(|conds|, i requires 0 <= i < |conds| => conds[i].(status := False, lastTransition := now))
  }

  /** The last condition of a kind, or -1. */
  function LastIndex(conds: seq<Condition>, kind: ConditionType): (k: int)
    ensures -1 <= k < |conds|
    ensures k >= 0 ==> conds[k].kind == kind
    ensures forall i :: k < i < |conds| ==> conds[i].kind != kind
  {
    if conds == [] then -1
    else if conds[|conds| - 1].kind == kind then |conds| - 1
    else LastIndex(conds[..|conds| - 1], kind)
  }

  function Updated(conds: seq<Condition>, c: Condition, now: int): seq<Condition> {
    if Says(conds, c) then conds
    else
      var k := LastIndex(conds, c.kind);
      var active := c.(status := True, lastTransition := now);
      if k < 0 then Reset(conds, now) + [active] else Reset(conds, now)[k := active]
  }

  method UpdateCondition(conds: seq<Condition>, condition: Condition, now: int) returns (r: seq<Condition>)
    ensures r == Updated(conds, condition, now)
  {
    for i := 0 to |conds|
      invariant !Says(conds[..i], condition)
    {
      var c := conds[i];
      if c.kind == condition.kind && c.reason == condition.reason && c.message == condition.message
          && c.status == True {
        return conds;
      }
      assert conds[..i + 1] == conds[..i] + [c];
    }
    assert conds[..|conds|] == conds;
    var active := condition.(status := True, lastTransition := now);
    r := conds;
    var index := -1;
    for i := 0 to |r|
      invariant |r| == |conds| && index == LastIndex(conds[..i], condition.kind)
      invariant forall j :: 0 <= j < |r| ==> r[j] == if j < i then Reset(conds, now)[j] else conds[j]
    {
      assert conds[..i + 1][..i] == conds[..i];
      r := r[i := r[i].(status := False)];
      r := r[i := r[i].(lastTransition := now)];
      if r[i].kind == condition.kind { index := i; }
    }
    assert r == Reset(conds, now);
    r := if index == -1 then r + [active] else r[index := active];
  }

  // ---------- invariants ----------

  ghost predicate AtMostOneTrue(conds: seq<Condition>) {
    forall i, j :: 0 <= i < j < |conds| ==> !(conds[i].status == True && conds[j].status == True)
  }

  predicate IsTrue(conds: seq<Condition>, kind: ConditionType) {
    exists i :: 0 <= i < |conds| && conds[i].kind == kind && conds[i].status == True
  }

  /** The one condition that is true. */
  ghost predicate OnlyTrue(conds: seq<Condition>, kind: ConditionType) {
    forall k :: IsTrue(conds, k) <==> k == kind
  }

  /** Updating keeps kinds distinct and leaves the updated condition as the only true one; a list in which several
      conditions are true is repaired unless it already says what is wanted. */
  lemma UpdateFacts(conds: seq<Condition>, c: Condition, now: int)
    ensures DistinctKinds(conds) ==> DistinctKinds(Updated(conds, c, now))
    ensures AtMostOneTrue(conds) || !Says(conds, c) ==>
              AtMostOneTrue(Updated(conds, c, now)) && OnlyTrue(Updated(conds, c, now), c.kind)
    ensures Says(Updated(conds, c, now), c)
    ensures !Says(conds, c) ==> c.(status := True, lastTransition := now) in Updated(conds, c, now)
  {
    var r := Updated(conds, c, now);
    var k := LastIndex(conds, c.kind);
    if Says(conds, c) {
      var i :| 0 <= i < |conds| && conds[i].kind == c.kind && conds[i].reason == c.reason
               && conds[i].message == c.message && conds[i].status == True;
      assert IsTrue(r, c.kind);
      if AtMostOneTrue(conds) {
        forall kind | IsTrue(conds, kind) ensures kind == c.kind {
          var j :| 0 <= j < |conds| && conds[j].kind == kind && conds[j].status == True;
        }
      }
    } else {
      var at := if k < 0 then |conds| else k;
      assert r[at] == c.(status := True, lastTransition := now);
      assert forall i :: 0 <= i < |r| && i != at ==> r[i].status == False && r[i].kind == conds[i].kind;
    }
  }

  /** Conditions that were not updated keep reason and message. They are reset, and their transition time is the time of
      the update even if their status did not change, exactly when the list did not already say it. */
  lemma OthersAfterUpdate(conds: seq<Condition>, c: Condition, now: int, i: nat)
    requires i < |conds| && conds[i].kind != c.kind
    ensures var r := Updated(conds, c, now);
            i < |r| && r[i] == if Says(conds, c) then conds[i] else conds[i].(status := False, lastTransition := now)
  {}

  // ---------- the metric gauges ----------

  type GaugeValues = map<ConditionType, nat>

  function GaugesFor(conds: seq<Condition>): GaugeValues {
    map k: ConditionType | true :: if IsTrue(conds, k) then 1 else 0
  }

  ghost predicate AtMostOneGauge(g: GaugeValues) {
    (forall k :: k in g ==> g[k] <= 1) && forall a, b :: a in g && b in g && g[a] == 1 && g[b] == 1 ==> a == b
  }

  lemma OneGauge(conds: seq<Condition>)
    requires AtMostOneTrue(conds)
    ensures AtMostOneGauge(GaugesFor(conds))
  {
    var g := GaugesFor(conds);
    forall a, b | a in g && b in g && g[a] == 1 && g[b] == 1 ensures a == b {
      var i :| 0 <= i < |conds| && conds[i].kind == a && conds[i].status == True;
      var j :| 0 <= j < |conds| && conds[j].kind == b && conds[j].status == True;
    }
  }

  class Gauges {
    var values: GaugeValues

    constructor ()
      ensures values == map[]
    {
      values := map[];
    }

    /** updateMetrics: every known condition gets a value, also those that are not in the list. */
    method UpdateMetrics(conds: seq<Condition>)
      modifies this
      ensures values == GaugesFor(conds)
    {
      var active: map<ConditionType, nat> := map[];
      for i := 0 to |conds|
        invariant forall k :: k in active <==> IsTrue(conds[..i], k)
        invariant forall k :: k in active ==> active[k] == 1
      {
        assert conds[..i + 1] == conds[..i] + [conds[i]];
        if conds[i].status == True { active := active[conds[i].kind := 1]; }
      }
      assert conds[..|conds|] == conds;
      for i := 0 to |ALL_STATUS_CONDITIONS|
        invariant forall k :: k in ALL_STATUS_CONDITIONS[..i] ==>
                    k in values && values[k] == if IsTrue(conds, k) then 1 else 0
      {
        var kind := ALL_STATUS_CONDITIONS[i];
        assert ALL_STATUS_CONDITIONS[..i + 1] == ALL_STATUS_CONDITIONS[..i] + [kind];
        values := values[kind := if kind in active then active[kind] else 0];
      }
      AllKindsListed();
      assert ALL_STATUS_CONDITIONS[..|ALL_STATUS_CONDITIONS|] == ALL_STATUS_CONDITIONS;
      assert forall k: ConditionType :: k in values;
      assert values == GaugesFor(conds);
    }

    /** ClearTempoStackMetrics. */
    method Clear()
      modifies this
      ensures values == GaugesFor([])
    {
      for i := 0 to |ALL_STATUS_CONDITIONS|
        invariant forall k :: k in ALL_STATUS_CONDITIONS[..i] ==> k in values && values[k] == 0
      {
        assert ALL_STATUS_CONDITIONS[..i + 1] == ALL_STATUS_CONDITIONS[..i] + [ALL_STATUS_CONDITIONS[i]];
        values := values[ALL_STATUS_CONDITIONS[i] := 0];
      }
      AllKindsListed();
      assert ALL_STATUS_CONDITIONS[..|ALL_STATUS_CONDITIONS|] == ALL_STATUS_CONDITIONS;
      assert forall k: ConditionType :: k in values;
    }
  }

  lemma AllKindsListed()
    ensures forall k: ConditionType :: k in ALL_STATUS_CONDITIONS
  {
    assert ALL_STATUS_CONDITIONS[0] == Ready && ALL_STATUS_CONDITIONS[1] == Failed
        && ALL_STATUS_CONDITIONS[2] == Pending && ALL_STATUS_CONDITIONS[3] == ConfigurationError;
    forall k: ConditionType ensures k in ALL_STATUS_CONDITIONS {
      match k case Ready => case Failed => case Pending => case ConfigurationError =>
    }
  }

  // ---------- one reconciliation ----------

  /** The parts of the status that matter here; an empty operator version means a new custom resource. */
  datatype StackStatus = StackStatus(conditions: seq<Condition>, operatorVersion: string)

  datatype Observation = Observation(lists: PodLists, metricsGenerator: bool, error: ReconcileError, now: int)

  function ComponentCondition(kind: ConditionType): Condition {
    match kind
    case Ready => Condition(Ready, Unknown, "Ready", "All components are operational", 0)
    case Failed => Condition(Failed, Unknown, "FailedComponents", "Some Tempo components failed", 0)
    case _ => Condition(Pending, Unknown, "PendingComponents", "Some Tempo components are pending on dependencies", 0)
  }

  function ErrorCondition(e: ReconcileError): Condition
    requires !e.NoError?
  {
    if e.Misconfigured? then Condition(ConfigurationError, Unknown, e.reason, e.message, 0)
    else Condition(Failed, Unknown, "FailedReconciliation", e.message, 0)
  }

  /** GetComponentsStatus: nothing at all is returned when a pod list fails. */
  ghost function ComponentsStatus(s: StackStatus, o: Observation): StackStatus {
    if LookupFails(o.lists, o.metricsGenerator) then StackStatus([], "")
    else
      var active := ActiveCondition(o.lists, o.metricsGenerator);
      s.(conditions := Updated(s.conditions, ComponentCondition(active), o.now))
  }

  /** The status that handleReconcileStatus and Refresh write; an error condition is computed from the old
      conditions. */
  ghost function NewStatus(s: StackStatus, o: Observation, version: string): StackStatus {
    var components := ComponentsStatus(s, o);
    var conditions := if o.error.NoError? then components.conditions
                      else Updated(s.conditions, ErrorCondition(o.error), o.now);
    StackStatus(conditions, if components.operatorVersion == "" then version else components.operatorVersion)
  }

  /** A TempoStack's stored status and the gauges the operator exports for it. */
  class Reconciler {
    var status: StackStatus
    const gauges: Gauges
    const version: string

    constructor (version: string)
      ensures status == StackStatus([], "") && gauges.values == map[] && fresh(gauges) && this.version == version
    {
      status := StackStatus([], "");
      gauges := new Gauges();
      this.version := version;
    }

    method GetComponentsStatus(o: Observation) returns (r: StackStatus)
      ensures r == ComponentsStatus(status, o)
    {
      var kind := ComponentsCondition(o.lists, o.metricsGenerator);
      if kind.None? { return StackStatus([], ""); }
      var conditions := UpdateCondition(status.conditions, ComponentCondition(kind.value), o.now);
      return status.(conditions := conditions);
    }

    /** handleReconcileStatus: the gauges are set before the status is written, which may fail. */
    method HandleReconcileStatus(o: Observation, written: bool)
      modifies this, gauges
      ensures gauges.values == GaugesFor(NewStatus(old(status), o, version).conditions)
      ensures status == if written then NewStatus(old(status), o, version) else old(status)
    {
      var newStatus := GetComponentsStatus(o);
      if !o.error.NoError? {
        var conditions := UpdateCondition(status.conditions, ErrorCondition(o.error), o.now);
        newStatus := newStatus.(conditions := conditions);
      }
      if newStatus.operatorVersion == "" { newStatus := newStatus.(operatorVersion := version); }
      gauges.UpdateMetrics(newStatus.conditions);
      if written { status := newStatus; }
    }
  }

  // ---------- all runs ----------

  datatype World = World(status: StackStatus, gauges: GaugeValues)

  /** A reconciliation, whose status write may fail; or the resource is gone and its gauges are cleared. */
  datatype Event = Observed(o: Observation, written: bool) | Gone

  function Init(): World { World(StackStatus([], ""), map[]) }

  ghost function Step(w: World, e: Event, version: string): World {
    match e
    case Observed(o, written) =>
      var s := NewStatus(w.status, o, version);
      World(if written then s else w.status, GaugesFor(s.conditions))
    case Gone => World(StackStatus([], ""), GaugesFor([]))
  }

  ghost function Run(w: World, events: seq<Event>, version: string): World
    decreases |events|
  {
    if events == [] then w else Run(Step(w, events[0], version), events[1..], version)
  }

  ghost predicate Good(w: World) {
    DistinctKinds(w.status.conditions) && AtMostOneTrue(w.status.conditions) && AtMostOneGauge(w.gauges)
  }

  lemma StepKeepsGood(w: World, e: Event, version: string)
    requires Good(w)
    ensures Good(Step(w, e, version))
  {
    match e
    case Observed(o, _) =>
      UpdateFacts(w.status.conditions, ComponentCondition(ActiveCondition(o.lists, o.metricsGenerator)), o.now);
      if !o.error.NoError? { UpdateFacts(w.status.conditions, ErrorCondition(o.error), o.now); }
      OneGauge(NewStatus(w.status, o, version).conditions);
    case Gone =>
      OneGauge([]);
  }

  /** Over every run from an empty list, with failing pod lists, reconcile errors and failing writes: condition kinds
      stay distinct, at most one condition is true, and at most one gauge is 1. */
  lemma {:induction false} ConditionsStayGood(w: World, events: seq<Event>, version: string)
    requires Good(w)
    ensures Good(Init()) && Good(Run(w, events, version))
    decreases |events|
  {
    if events != [] {
      StepKeepsGood(w, events[0], version);
      ConditionsStayGood(Step(w, events[0], version), events[1..], version);
    }
  }

  /** What a reconciliation calls for: its error decides first, and the pods if there is none. */
  ghost predicate CallsFor(o: Observation, kind: ConditionType) {
    match o.error
    case Misconfigured(_, _) => kind == ConfigurationError
    case OtherError(_) => kind == Failed
    case NoError => !LookupFails(o.lists, o.metricsGenerator) && kind == ActiveCondition(o.lists, o.metricsGenerator)
  }

  /** The true condition after a reconciliation is the one that is called for, and so is the one gauge that is 1; every
      known condition has a gauge, even if the status could not be written. */
  lemma TrueCondition(w: World, o: Observation, written: bool, version: string)
    requires Good(w)
    ensures var w' := Step(w, Observed(o, written), version);
            && (forall kind :: IsTrue(NewStatus(w.status, o, version).conditions, kind) <==> CallsFor(o, kind))
            && (forall kind :: kind in w'.gauges)
            && (forall kind :: CallsFor(o, kind) ==> w'.gauges[kind] == 1)
            && (forall kind :: !CallsFor(o, kind) ==> w'.gauges[kind] == 0)
  {
    UpdateFacts(w.status.conditions, ComponentCondition(ActiveCondition(o.lists, o.metricsGenerator)), o.now);
    if !o.error.NoError? { UpdateFacts(w.status.conditions, ErrorCondition(o.error), o.now); }
    hide AnyPod, LookupFails, Updated;
  }

  /** The condition that an error puts into the list carries its text, and the time of the update if it is news. */
  lemma ErrorIsTold(s: StackStatus, o: Observation, version: string)
    requires !o.error.NoError?
    ensures var conds := NewStatus(s, o, version).conditions;
            && |conds| <= |s.conditions| + 1
            && exists c :: c in conds && c.status == True && c.message == o.error.message
                        && c.kind == (if o.error.Misconfigured? then ConfigurationError else Failed)
                        && c.reason == (if o.error.Misconfigured? then o.error.reason else "FailedReconciliation")
                        && (c.lastTransition == o.now || c in s.conditions)
  {
    var e := ErrorCondition(o.error);
    var conds := NewStatus(s, o, version).conditions;
    if Says(s.conditions, e) {
      var i :| 0 <= i < |s.conditions| && s.conditions[i].kind == e.kind && s.conditions[i].reason == e.reason
               && s.conditions[i].message == e.message && s.conditions[i].status == True;
      assert s.conditions[i] in conds;
    } else {
      var k := LastIndex(s.conditions, e.kind);
      assert conds[if k < 0 then |s.conditions| else k] == e.(status := True, lastTransition := o.now);
    }
  }

  /** Without an error the list says how the components are, in the words of the documentation. */
  lemma ComponentsAreTold(s: StackStatus, o: Observation, version: string)
    requires o.error.NoError? && !LookupFails(o.lists, o.metricsGenerator)
    ensures var kind := ActiveCondition(o.lists, o.metricsGenerator);
            exists c :: c in NewStatus(s, o, version).conditions && c.kind == kind && c.status == True
                        && c.reason == (match kind
                                        case Ready => "Ready"
                                        case Failed => "FailedComponents"
                                        case _ => "PendingComponents")
                        && c.message == (match kind
                                         case Ready => "All components are operational"
                                         case Failed => "Some Tempo components failed"
                                         case _ => "Some Tempo components are pending on dependencies")
  {
    var c := ComponentCondition(ActiveCondition(o.lists, o.metricsGenerator));
    UpdateFacts(s.conditions, c, o.now);
    var conds := NewStatus(s, o, version).conditions;
    var i :| 0 <= i < |conds| && conds[i].kind == c.kind && conds[i].reason == c.reason
             && conds[i].message == c.message && conds[i].status == True;
    assert conds[i] in conds;
    hide AnyPod, Updated;
  }

  /** Some condition is true after a reconciliation exactly when there was an error to report or every pod list
      succeeded: a failing pod list on its own wipes all conditions. */
  lemma SomeConditionTrue(w: World, o: Observation, version: string)
    requires Good(w)
    ensures (exists k :: IsTrue(NewStatus(w.status, o, version).conditions, k))
       <==> !o.error.NoError? || !LookupFails(o.lists, o.metricsGenerator)
  {
    TrueCondition(w, o, false, version);
    var conds := NewStatus(w.status, o, version).conditions;
    if !o.error.NoError? {
      assert IsTrue(conds, ErrorCondition(o.error).kind);
    } else if LookupFails(o.lists, o.metricsGenerator) {
      assert conds == [];
    } else {
      assert IsTrue(conds, ActiveCondition(o.lists, o.metricsGenerator));
    }
  }

  /** A failing pod list also wipes the recorded operator version, which is then filled with that of the running
      operator. After an upgrade that failed, the next reconciliation therefore still runs the steps exactly when the
      pods could be listed; otherwise it takes the resource for up to date and leaves its spec as it is. */
  lemma UpgradeAfterStatus<S>(parse: Parser, op: Operator<S>, fails: Failing, cr: Cr<S>, conds: seq<Condition>,
                              o: Observation)
    requires cr.operatorVersion != "" && cr.operatorVersion != op.version
    ensures var status := NewStatus(StackStatus(conds, cr.operatorVersion), o, op.version);
            var next := cr.(operatorVersion := status.operatorVersion);
            UpgradeSpec(parse, op, fails, next) ==
              if LookupFails(o.lists, o.metricsGenerator) then Ok(cr.(operatorVersion := op.version))
              else UpgradeSpec(parse, op, fails, cr)
  {}
}
