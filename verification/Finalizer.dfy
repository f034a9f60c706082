/** The finalizer of a TempoStack and the cluster-scoped objects it guards (internal/controller/tempo/finalizer.go and
    the first part of Reconcile in tempostack_controller.go), as a machine whose calls may fail at any point. */
module Finalizer {
  import opened Wrappers
  import opened Labels

  datatype ManagementState = Managed | Unmanaged | OtherState

  /** A TempoStack as the API server stores it; every write gives it a new version. */
  datatype Resource = Resource(deleting: bool, finalizer: bool, state: ManagementState, version: nat)

  datatype RoleKind = ClusterRoleKind | ClusterRoleBindingKind

  /** Cluster-scoped objects are identified by kind and name alone. */
  datatype ObjectKey = ObjectKey(kind: RoleKind, name: string)

  /** How far the one worker reconciling an instance has come. */
  datatype Stage =
    | Idle
    | Fetched(r: Resource)
    | Applying(listed: set<ObjectKey>)
    | Deleting(read: Resource, todo: set<ObjectKey>, failed: bool)

  datatype World = World(
    instances: map<Id, Resource>,
    objects: map<ObjectKey, LabelSet>,
    stages: map<Id, Stage>,
    nextVersion: nat)

  /** ok tells whether the API server performed the call. */
  datatype Event =
    | UserCreates(id: Id, state: ManagementState, finalizer: bool)
    | UserEdits(id: Id, state: ManagementState)
    | UserDeletes(id: Id)
    | Fetches(id: Id, ok: bool)
    | Registers(id: Id, ok: bool)
    | ListsOwned(id: Id)
    | Applies(id: Id, kind: RoleKind)
    | Prunes(id: Id, key: ObjectKey)
    | Lists(id: Id, ok: bool)
    | Deletes(id: Id, key: ObjectKey, ok: bool)
    | Releases(id: Id, ok: bool)
    | Stops(id: Id)
    | Restarts

  function Init(): World { World(map[], map[], map[], 0) }

  function StageOf(w: World, id: Id): Stage { if id in w.stages then w.stages[id] else Idle }

  function At(w: World, id: Id, stage: Stage): World { w.(stages := w.stages[id := stage]) }

  function KeyOf(id: Id, kind: RoleKind): ObjectKey { ObjectKey(kind, ClusterRoleName(id)) }

  predicate IsLabelled(id: Id, labels: LabelSet) { Selects(ClusterScopedCommonLabels(id), labels) }

  /** findClusterRoleObjects. */
  function OwnedBy(w: World, id: Id): set<ObjectKey> { set key | key in w.objects && IsLabelled(id, w.objects[key]) }

  /** An update goes through only if nobody wrote the resource since it was read. */
  predicate Current(w: World, id: Id, r: Resource) { id in w.instances && w.instances[id].version == r.version }

  predicate NeedsFinalize(r: Resource) { r.deleting && r.finalizer && r.state != Unmanaged }

  /** Everything was deleted, or there is nothing to be done for an unmanaged instance. */
  predicate MayRelease(stage: Stage) {
    match stage
    case Deleting(_, todo, failed) => todo == {} && !failed
    case Fetched(r) => r.deleting && r.finalizer && r.state == Unmanaged
    case _ => false
  }

  predicate Enabled(w: World, e: Event) {
    match e
    case UserCreates(id, _, _) => id !in w.instances
    case UserEdits(id, _) => id in w.instances
    case UserDeletes(id) => id in w.instances
    case Fetches(id, _) => StageOf(w, id).Idle?
    case Registers(id, _) => StageOf(w, id).Fetched? && !StageOf(w, id).r.deleting
    case ListsOwned(id) => StageOf(w, id).Applying?
    case Applies(id, _) => StageOf(w, id).Applying?
    case Prunes(id, key) => StageOf(w, id).Applying? && key in StageOf(w, id).listed
    case Lists(id, _) => StageOf(w, id).Fetched? && NeedsFinalize(StageOf(w, id).r)
    case Deletes(id, key, _) => StageOf(w, id).Deleting? && key in StageOf(w, id).todo
    case Releases(id, _) => MayRelease(StageOf(w, id))
    case Stops(_) => true
    case Restarts => true
  }

  /** What reconciliation goes on to once the finalizer is known to be there. */
  function AfterFinalizer(state: ManagementState): Stage { if state == Managed then Applying({}) else Idle }

  function ReadBy(stage: Stage): Resource
    requires MayRelease(stage)
  {
    if stage.Fetched? then stage.r else stage.read
  }

  function Step(w: World, e: Event): World
    requires Enabled(w, e)
  {
    match e
    case UserCreates(id, state, finalizer) =>
      w.(instances := w.instances[id := Resource(false, finalizer, state, w.nextVersion)],
         nextVersion := w.nextVersion + 1)
    case UserEdits(id, state) =>
      w.(instances := w.instances[id := w.instances[id].(state := state, version := w.nextVersion)],
         nextVersion := w.nextVersion + 1)
    case UserDeletes(id) =>
      if w.instances[id].finalizer then
        w.(instances := w.instances[id := w.instances[id].(deleting := true, version := w.nextVersion)],
           nextVersion := w.nextVersion + 1)
      else w.(instances := w.instances - {id})
    case Fetches(id, ok) =>
      if ok && id in w.instances then At(w, id, Fetched(w.instances[id])) else At(w, id, Idle)
    case Registers(id, ok) =>
      var r := StageOf(w, id).r;
      if r.finalizer then At(w, id, AfterFinalizer(r.state))
      else if ok && Current(w, id, r) then
        At(w.(instances := w.instances[id := r.(finalizer := true, version := w.nextVersion)],
              nextVersion := w.nextVersion + 1),
           id, AfterFinalizer(r.state))
      else At(w, id, Idle)
    case ListsOwned(id) => At(w, id, Applying(OwnedBy(w, id)))
    case Applies(id, kind) => w.(objects := w.objects[KeyOf(id, kind) := ClusterScopedComponentLabels(id, "gateway")])
    case Prunes(id, key) => w.(objects := w.objects - {key})
    case Lists(id, ok) =>
      At(w, id, if ok then Deleting(StageOf(w, id).r, OwnedBy(w, id), false) else Idle)
    case Deletes(id, key, ok) =>
      var d := StageOf(w, id);
      var gone := ok && key in w.objects;
      At(w.(objects := if gone then w.objects - {key} else w.objects), id,
         Deleting(d.read, d.todo - {key}, d.failed || !gone))
    case Releases(id, ok) =>
      if ok && Current(w, id, ReadBy(StageOf(w, id))) then At(w.(instances := w.instances - {id}), id, Idle)
      else At(w, id, Idle)
    case Stops(id) => At(w, id, Idle)
    case Restarts => w.(stages := map[])
  }

  ghost predicate CanRun(w: World, events: seq<Event>)
    decreases |events|
  {
    events == [] || (Enabled(w, events[0]) && CanRun(Step(w, events[0]), events[1..]))
  }

  ghost function Run(w: World, events: seq<Event>): World
    requires CanRun(w, events)
    decreases |events|
  {
    if events == [] then w else Run(Step(w, events[0]), events[1..])
  }

  // ---------- the guard ----------

  predicate Held(w: World, id: Id) { id in w.instances && w.instances[id].finalizer }

  /** Cluster-scoped objects of the instance exist only while the instance exists and carries the finalizer. */
  ghost predicate Guarded(w: World, id: Id) {
    forall key :: key in w.objects && IsLabelled(id, w.objects[key]) ==> Held(w, id)
  }

  /** The worker's knowledge is still true: nobody but itself takes the finalizer away or creates these objects. */
  predicate StageHolds(w: World, id: Id) {
    match StageOf(w, id)
    case Idle => true
    case Fetched(r) => r.state != Unmanaged && (r.finalizer ==> Held(w, id))
    case Applying(_) => Held(w, id)
    case Deleting(_, todo, failed) => Held(w, id) && (!failed ==> OwnedBy(w, id) <= todo)
  }

  ghost predicate Safe(w: World, id: Id) {
    Guarded(w, id) && StageHolds(w, id) && (id in w.instances ==> w.instances[id].state != Unmanaged)
  }

  predicate KeepsManaged(e: Event, id: Id) {
    !((e.UserCreates? || e.UserEdits?) && e.id == id && e.state == Unmanaged)
  }

  predicate ByUser(e: Event) { e.UserCreates? || e.UserEdits? || e.UserDeletes? }

  predicate ByWorker(e: Event, id: Id) { !ByUser(e) && !e.Restarts? && e.id == id }

  lemma OwnStepKeepsSafe(w: World, e: Event, id: Id)
    requires Enabled(w, e) && Safe(w, id) && ByWorker(e, id)
    ensures Safe(Step(w, e), id)
  {
    hide Selects, ClusterScopedCommonLabels, ClusterScopedComponentLabels, ClusterRoleName;
    assert forall key :: key in w.objects && IsLabelled(id, w.objects[key]) ==> key in OwnedBy(w, id);
  }

  lemma ForeignStepKeepsSafe(w: World, e: Event, id: Id)
    requires Enabled(w, e) && Safe(w, id) && KeepsManaged(e, id) && !ByWorker(e, id)
    ensures Safe(Step(w, e), id)
  {
    if e.Applies? { SelectsOwnOnly(id, e.id, "gateway"); }
    hide Selects, ClusterScopedCommonLabels, ClusterScopedComponentLabels, ClusterRoleName;
  }

  lemma StepKeepsSafe(w: World, e: Event, id: Id)
    requires Enabled(w, e) && Safe(w, id) && KeepsManaged(e, id)
    ensures Safe(Step(w, e), id)
  {
    if ByWorker(e, id) { OwnStepKeepsSafe(w, e, id); } else { ForeignStepKeepsSafe(w, e, id); }
  }

  ghost predicate NeverUnmanaged(events: seq<Event>, id: Id) {
    forall i :: 0 <= i < |events| ==> KeepsManaged(events[i], id)
  }

  lemma {:induction false} RunKeepsSafe(w: World, events: seq<Event>, id: Id)
    requires CanRun(w, events) && Safe(w, id) && NeverUnmanaged(events, id)
    ensures Safe(Run(w, events), id)
    decreases |events|
  {
    if events != [] {
      StepKeepsSafe(w, events[0], id);
      RunKeepsSafe(Step(w, events[0]), events[1..], id);
    }
  }

  /** Finalizer safety: over every run, with failing calls, restarts and users writing in between, the cluster-scoped
      objects that carry the labels of an instance that is never unmanaged exist only while it exists with the
      finalizer. */
  lemma FinalizerSafety(events: seq<Event>, id: Id)
    requires CanRun(Init(), events) && NeverUnmanaged(events, id)
    ensures Guarded(Run(Init(), events), id)
  {
    RunKeepsSafe(Init(), events, id);
  }

  // ---------- releases without cleaning up ----------

  /** An unmanaged instance is released although objects of it exist. */
  predicate Leaks(w: World, e: Event, id: Id) {
    e == Releases(id, true) && StageOf(w, id).Fetched? && Current(w, id, StageOf(w, id).r) && OwnedBy(w, id) != {}
  }

  /** The worker's knowledge is still true, whether or not the instance is managed. */
  ghost predicate Sound(w: World, id: Id) {
    Guarded(w, id)
    && match StageOf(w, id)
       case Idle => true
       case Fetched(r) => r.finalizer ==> Held(w, id)
       case Applying(_) => Held(w, id)
       case Deleting(_, todo, failed) => Held(w, id) && (!failed ==> OwnedBy(w, id) <= todo)
  }

  lemma OwnStepSound(w: World, e: Event, id: Id)
    requires Enabled(w, e) && Sound(w, id) && ByWorker(e, id)
    ensures if Leaks(w, e, id) then !Guarded(Step(w, e), id) else Sound(Step(w, e), id)
  {
    hide Selects, ClusterScopedCommonLabels, ClusterScopedComponentLabels, ClusterRoleName;
    assert forall key :: key in w.objects && IsLabelled(id, w.objects[key]) ==> key in OwnedBy(w, id);
    if Leaks(w, e, id) {
      var key :| key in OwnedBy(w, id);
      assert key in Step(w, e).objects && IsLabelled(id, Step(w, e).objects[key]);
    }
  }

  lemma ForeignStepSound(w: World, e: Event, id: Id)
    requires Enabled(w, e) && Sound(w, id) && !ByWorker(e, id)
    ensures Sound(Step(w, e), id)
  {
    if e.Applies? { SelectsOwnOnly(id, e.id, "gateway"); }
    hide Selects, ClusterScopedCommonLabels, ClusterScopedComponentLabels, ClusterRoleName;
  }

  ghost predicate GuardedThroughout(w: World, events: seq<Event>, id: Id)
    requires CanRun(w, events)
    decreases |events|
  {
    Guarded(w, id) && (events != [] ==> GuardedThroughout(Step(w, events[0]), events[1..], id))
  }

  ghost predicate NeverLeaks(w: World, events: seq<Event>, id: Id)
    requires CanRun(w, events)
    decreases |events|
  {
    events == [] || (!Leaks(w, events[0], id) && NeverLeaks(Step(w, events[0]), events[1..], id))
  }

  lemma {:induction false} SoundThroughout(w: World, events: seq<Event>, id: Id)
    requires CanRun(w, events) && Sound(w, id)
    ensures GuardedThroughout(w, events, id) <==> NeverLeaks(w, events, id)
    decreases |events|
  {
    if events != [] {
      var e, w' := events[0], Step(w, events[0]);
      if ByWorker(e, id) { OwnStepSound(w, e, id); } else { ForeignStepSound(w, e, id); }
      hide Sound, Step, Enabled, Guarded, Leaks;
      if !Leaks(w, e, id) {
        SoundThroughout(w', events[1..], id);
      }
    }
  }

  /** For users who may do anything: the cluster-scoped objects of an instance outlive it, or its finalizer, in exactly
      those runs in which it is released while unmanaged and while such objects exist. */
  lemma LeaksExactly(events: seq<Event>, id: Id)
    requires CanRun(Init(), events)
    ensures GuardedThroughout(Init(), events, id) <==> NeverLeaks(Init(), events, id)
  {
    SoundThroughout(Init(), events, id);
  }

  // ---------- other instances ----------

  predicate Involves(events: seq<Event>, ids: set<Id>) {
    forall i :: 0 <= i < |events| ==> events[i] == Restarts || events[i].id in ids
  }

  /** Everyone who takes part. */
  function IdsOf(events: seq<Event>): (ids: set<Id>)
    ensures Involves(events, ids)
  {
    set i | 0 <= i < |events| && !events[i].Restarts? :: events[i].id
  }

  predicate NamedAfter(keys: set<ObjectKey>, id: Id) {
    forall key :: key in keys ==> key.name == ClusterRoleName(id)
  }

  /** Every object carries the name and labels of an instance, and workers only hold keys of their own. */
  ghost predicate Tidy(w: World, ids: set<Id>) {
    TidyObjects(w, ids) && TidyStages(w)
  }

  ghost predicate TidyObjects(w: World, ids: set<Id>) {
    forall key :: key in w.objects ==>
      exists id :: id in ids && key.name == ClusterRoleName(id)
          && w.objects[key] == ClusterScopedComponentLabels(id, "gateway")
  }

  ghost predicate TidyStages(w: World) {
    forall id :: id in w.stages ==>
      (w.stages[id].Applying? ==> NamedAfter(w.stages[id].listed, id))
      && (w.stages[id].Deleting? ==> NamedAfter(w.stages[id].todo, id))
  }

  lemma OwnedByIsNamed(w: World, ids: set<Id>, id: Id)
    requires Tidy(w, ids)
    ensures NamedAfter(OwnedBy(w, id), id)
  {
    forall key | key in OwnedBy(w, id) ensures key.name == ClusterRoleName(id) {
      var j :| j in ids && key.name == ClusterRoleName(j)
          && w.objects[key] == ClusterScopedComponentLabels(j, "gateway");
      SelectsOwnOnly(id, j, "gateway");
    }
  }

  lemma StepKeepsTidy(w: World, e: Event, ids: set<Id>)
    requires Enabled(w, e) && Tidy(w, ids) && (e == Restarts || e.id in ids)
    ensures Tidy(Step(w, e), ids)
  {
    StepKeepsTidyObjects(w, e, ids);
    StepKeepsTidyStages(w, e, ids);
    hide Step, TidyObjects, TidyStages;
  }

  lemma StepKeepsTidyObjects(w: World, e: Event, ids: set<Id>)
    requires Enabled(w, e) && TidyObjects(w, ids) && (e == Restarts || e.id in ids)
    ensures TidyObjects(Step(w, e), ids)
  {
    hide ClusterScopedComponentLabels, ClusterRoleName, Current, AfterFinalizer, ReadBy, OwnedBy, NeedsFinalize;
  }

  lemma StepKeepsTidyStages(w: World, e: Event, ids: set<Id>)
    requires Enabled(w, e) && Tidy(w, ids)
    ensures TidyStages(Step(w, e))
  {
    hide ClusterScopedComponentLabels, ClusterRoleName, TidyObjects, NeedsFinalize;
    if e.ListsOwned? || e.Lists? { OwnedByIsNamed(w, ids, e.id); }
    hide OwnedBy;
  }

  lemma {:induction false} RunKeepsTidy(w: World, events: seq<Event>, ids: set<Id>)
    requires CanRun(w, events) && Tidy(w, ids) && Involves(events, ids)
    ensures Tidy(Run(w, events), ids)
    decreases |events|
  {
    if events != [] {
      assert events[0] == Restarts || events[0].id in ids;
      StepKeepsTidy(w, events[0], ids);
      RunKeepsTidy(Step(w, events[0]), events[1..], ids);
    }
  }

  /** The worker of one instance removes an object that carries the labels of the other. */
  predicate RemovesOther(w: World, e: Event, i: Id, j: Id)
    requires Enabled(w, e)
  {
    (e.Deletes? || e.Prunes?) && e.id == i
    && e.key in w.objects && e.key !in Step(w, e).objects && IsLabelled(j, w.objects[e.key])
  }

  /** Some run, with any instances taking part, leads to such a removal. */
  ghost predicate MayRemoveOther(i: Id, j: Id) {
    exists events, e :: CanRun(Init(), events)
                        && Enabled(Run(Init(), events), e) && RemovesOther(Run(Init(), events), e, i, j)
  }

  lemma TidyProtects(w: World, e: Event, i: Id, j: Id, ids: set<Id>)
    requires ClusterRoleName(i) != ClusterRoleName(j)
    requires Tidy(w, ids) && Enabled(w, e)
    ensures !RemovesOther(w, e, i, j)
  {
    hide Selects, ClusterScopedCommonLabels, ClusterScopedComponentLabels, ClusterRoleName, Step;
    if RemovesOther(w, e, i, j) {
      var owner :| owner in ids && e.key.name == ClusterRoleName(owner)
                   && w.objects[e.key] == ClusterScopedComponentLabels(owner, "gateway");
      SelectsOwnOnly(j, owner, "gateway");
      assert false;
    }
  }

  function Arrival(id: Id): (es: seq<Event>)
    ensures |es| == 4
  {
    [UserCreates(id, Managed, false), Fetches(id, true), Registers(id, true), Applies(id, ClusterRoleKind)]
  }

  function Departure(id: Id): (es: seq<Event>)
    ensures |es| == 4
  {
    [Stops(id), UserDeletes(id), Fetches(id, true), Lists(id, true)]
  }

  /** While i is being finalized, j with the same object name takes the listed object over; i then deletes it. */
  function TakeOver(i: Id, j: Id): seq<Event> { Arrival(i) + Departure(i) + Arrival(j) }

  ghost predicate IsTrace(worlds: seq<World>, events: seq<Event>) {
    |worlds| == |events| + 1
    && forall k :: 0 <= k < |events| ==> Enabled(worlds[k], events[k]) && worlds[k + 1] == Step(worlds[k], events[k])
  }

  lemma {:induction false} TraceRuns(worlds: seq<World>, events: seq<Event>)
    requires IsTrace(worlds, events)
    ensures CanRun(worlds[0], events) && Run(worlds[0], events) == worlds[|events|]
    decreases |events|
  {
    if events != [] { TraceRuns(worlds[1..], events[1..]); }
  }

  /** A new instance gets its finalizer and its cluster-scoped object. */
  lemma Arrives(id: Id, w: World) returns (worlds: seq<World>)
    requires id !in w.instances && id !in w.stages
    ensures |worlds| == 5 && IsTrace(worlds, Arrival(id)) && worlds[0] == w
    ensures worlds[4] == World(w.instances[id := Resource(false, true, Managed, w.nextVersion + 1)],
                               w.objects[KeyOf(id, ClusterRoleKind) := ClusterScopedComponentLabels(id, "gateway")],
                               w.stages[id := Applying({})], w.nextVersion + 2)
  {
    hide ClusterScopedComponentLabels, KeyOf;
    var es := Arrival(id);
    var w1 := Step(w, es[0]);
    var w2 := Step(w1, es[1]);
    var w3 := Step(w2, es[2]);
    worlds := [w, w1, w2, w3, Step(w3, es[3])];
  }

  /** The only instance is deleted by its user, and its worker has listed the object to be deleted. */
  lemma Departs(id: Id, w: World) returns (worlds: seq<World>)
    requires w.instances == map[id := Resource(false, true, Managed, 1)]
    requires w.objects == map[KeyOf(id, ClusterRoleKind) := ClusterScopedComponentLabels(id, "gateway")]
    requires w.stages == map[id := Applying({})]
    ensures |worlds| == 5 && IsTrace(worlds, Departure(id)) && worlds[0] == w
    ensures var r := Resource(true, true, Managed, w.nextVersion);
            worlds[4] == World(map[id := r], w.objects, map[id := Deleting(r, {KeyOf(id, ClusterRoleKind)}, false)],
                               w.nextVersion + 1)
  {
    SelectsOwnOnly(id, id, "gateway");
    hide Selects, ClusterScopedCommonLabels, ClusterScopedComponentLabels, KeyOf;
    var es := Departure(id);
    var w1 := Step(w, es[0]);
    var w2 := Step(w1, es[1]);
    var w3 := Step(w2, es[2]);
    assert OwnedBy(w3, id) == {KeyOf(id, ClusterRoleKind)};
    worlds := [w, w1, w2, w3, Step(w3, es[3])];
  }

  lemma JoinTraces(a: seq<World>, b: seq<World>, events: seq<Event>, n: nat)
    requires n <= |events| && IsTrace(a, events[..n]) && IsTrace(b, events[n..]) && a[n] == b[0]
    ensures IsTrace(a[..n] + b, events)
  {
    var worlds := a[..n] + b;
    forall k | 0 <= k < |events| ensures Enabled(worlds[k], events[k]) && worlds[k + 1] == Step(worlds[k], events[k]) {
      if k < n {
        assert events[k] == events[..n][k];
      } else {
        assert events[k] == events[n..][k - n];
      }
    }
  }

  lemma TakeOverRemovesOther(i: Id, j: Id)
    requires i != j && ClusterRoleName(i) == ClusterRoleName(j)
    ensures MayRemoveOther(i, j)
  {
    hide ClusterRoleName, Step, Arrival, Departure, IsTrace;
    var first := Arrives(i, Init());
    var second := Departs(i, first[4]);
    var third := Arrives(j, second[4]);
    var es := TakeOver(i, j);
    ThreeTraces(first, second, third, Arrival(i), Departure(i), Arrival(j));
    var worlds := first[..4] + (second[..4] + third);
    TraceRuns(worlds, es);
    LastRemoves(i, j, third[4]);
  }

  lemma ThreeTraces(a: seq<World>, b: seq<World>, c: seq<World>, x: seq<Event>, y: seq<Event>, z: seq<Event>)
    requires IsTrace(a, x) && IsTrace(b, y) && IsTrace(c, z) && a[|x|] == b[0] && b[|y|] == c[0]
    ensures IsTrace(a[..|x|] + (b[..|y|] + c), x + y + z)
  {
    hide Step;
    assert (y + z)[..|y|] == y && (y + z)[|y|..] == z;
    JoinTraces(b, c, y + z, |y|);
    assert (x + y + z)[..|x|] == x && (x + y + z)[|x|..] == y + z;
    JoinTraces(a, b[..|y|] + c, x + y + z, |x|);
  }

  lemma LastRemoves(i: Id, j: Id, w: World)
    requires ClusterRoleName(i) == ClusterRoleName(j)
    requires KeyOf(j, ClusterRoleKind) in w.objects
    requires w.objects[KeyOf(j, ClusterRoleKind)] == ClusterScopedComponentLabels(j, "gateway")
    requires StageOf(w, i).Deleting? && KeyOf(i, ClusterRoleKind) in StageOf(w, i).todo
    ensures Enabled(w, Deletes(i, KeyOf(i, ClusterRoleKind), true))
    ensures RemovesOther(w, Deletes(i, KeyOf(i, ClusterRoleKind), true), i, j)
  {
    SelectsOwnOnly(j, j, "gateway");
    hide Selects, ClusterRoleName, ClusterScopedCommonLabels, ClusterScopedComponentLabels;
  }

  /** Finalizing or pruning for one instance can delete an object of another exactly when both are given the same
      cluster-scoped name. */
  lemma OthersUntouched(i: Id, j: Id)
    requires i != j
    ensures MayRemoveOther(i, j) <==> ClusterRoleName(i) == ClusterRoleName(j)
  {
    if ClusterRoleName(i) == ClusterRoleName(j) {
      TakeOverRemovesOther(i, j);
    } else {
      forall events, e | CanRun(Init(), events) && Enabled(Run(Init(), events), e)
        ensures !RemovesOther(Run(Init(), events), e, i, j)
      {
        RunKeepsTidy(Init(), events, IdsOf(events));
        TidyProtects(Run(Init(), events), e, i, j, IdsOf(events));
      }
    }
  }

  // ---------- the code, step by step ----------

  lemma {:induction false} RunAppend(w: World, events: seq<Event>, e: Event)
    requires CanRun(w, events) && Enabled(Run(w, events), e)
    ensures CanRun(w, events + [e]) && Run(w, events + [e]) == Step(Run(w, events), e)
    decreases |events|
  {
    if events == [] {
      assert events + [e] == [e] && [e][1..] == [];
    } else {
      assert (events + [e])[1..] == events[1..] + [e];
      RunAppend(Step(w, events[0]), events[1..], e);
    }
  }

  /** The world was reached from start by these events. */
  ghost predicate Reached(start: World, events: seq<Event>, w: World) {
    CanRun(start, events) && Run(start, events) == w
  }

  /** Part of what the worker set out to delete is gone; without a failure exactly that part, and nothing else. */
  ghost predicate DeletedSome(w0: World, w: World, id: Id, reliable: bool) {
    var before, after := StageOf(w0, id), StageOf(w, id);
    && before.Deleting? && after.Deleting? && w.instances == w0.instances
    && after.read == before.read && after.todo <= before.todo
    && after.todo <= w.objects.Keys <= w0.objects.Keys
    && (reliable ==> after.failed == before.failed)
    && (!after.failed ==> w.objects == w0.objects - (before.todo - after.todo))
  }

  lemma DeleteOneMore(w0: World, w: World, id: Id, reliable: bool, key: ObjectKey, ok: bool)
    requires DeletedSome(w0, w, id, reliable) && key in StageOf(w, id).todo && (reliable ==> ok)
    ensures var w' := Step(w, Deletes(id, key, ok));
            DeletedSome(w0, w', id, reliable) && StageOf(w', id).todo == StageOf(w, id).todo - {key}
  {
    var all, todo := StageOf(w0, id).todo, StageOf(w, id).todo;
    assert all - (todo - {key}) == (all - todo) + {key};
  }

  /** One worker, whose calls fail when the plan says so, with nobody else writing while it is busy. */
  class Reconciler {
    var world: World
    var calls: nat
    const plan: nat -> bool
    ghost var start: World
    ghost var trace: seq<Event>

    ghost predicate Valid()
      reads this
    {
      Reached(start, trace, world)
    }

    constructor (world: World, plan: nat -> bool)
      ensures Valid() && this.world == world && start == world && trace == [] && this.plan == plan
    {
      this.world := world;
      this.plan := plan;
      calls := 0;
      start := world;
      trace := [];
    }

    method Call() returns (ok: bool)
      modifies this`calls
      ensures calls == old(calls) + 1 && ok == plan(old(calls))
    {
      ok := plan(calls);
      calls := calls + 1;
    }

    method Perform(e: Event)
      requires Valid() && Enabled(world, e)
      modifies this`world, this`trace
      ensures Valid() && world == Step(old(world), e) && trace == old(trace) + [e]
    {
      RunAppend(start, trace, e);
      world := Step(world, e);
      trace := trace + [e];
    }

    /** findClusterRoleObjects: two lists by label; the first that fails ends it. */
    method FindClusterRoleObjects(id: Id) returns (r: Option<set<ObjectKey>>)
      modifies this`calls
      ensures calls >= old(calls)
      ensures r.Some? ==> r.value == OwnedBy(world, id)
      ensures (forall n :: plan(n)) ==> r.Some?
    {
      var owned: set<ObjectKey> := {};
      var kinds := [ClusterRoleKind, ClusterRoleBindingKind];
      for n := 0 to |kinds|
        invariant calls >= old(calls)
        invariant owned == set key | key in OwnedBy(world, id) && key.kind in kinds[..n]
      {
        var ok := Call();
        if !ok { return None; }
        assert kinds[..n + 1] == kinds[..n] + [kinds[n]];
        owned := owned + set key | key in world.objects && key.kind == kinds[n] && IsLabelled(id, world.objects[key]);
      }
      assert kinds[..|kinds|] == kinds;
      assert forall key: ObjectKey :: key.kind == kinds[0] || key.kind == kinds[1];
      assert owned == OwnedBy(world, id);
      return Some(owned);
    }

    /** deleteObjects: a failed delete is remembered and the loop goes on. */
    method DeleteObjects(id: Id)
      requires Valid() && StageOf(world, id).Deleting?
      requires StageOf(world, id).todo <= world.objects.Keys
      modifies this
      ensures Valid() && start == old(start)
      ensures DeletedSome(old(world), world, id, forall n :: plan(n)) && StageOf(world, id).todo == {}
    {
      hide Step;
      ghost var w0, reliable := world, forall n :: plan(n);
      while StageOf(world, id).todo != {}
        invariant Valid() && start == old(start)
        invariant StageOf(world, id).Deleting? && DeletedSome(w0, world, id, reliable)
        decreases |StageOf(world, id).todo|
      {
        var key :| key in StageOf(world, id).todo;
        var ok := Call();
        DeleteOneMore(w0, world, id, reliable, key, ok);
        Perform(Deletes(id, key, ok));
      }
    }

    /** The deletion branch of Reconcile: finalize unless unmanaged, then remove the finalizer. */
    method ReconcileDeleted(id: Id)
      requires Valid() && StageOf(world, id).Fetched? && StageOf(world, id).r.deleting
      requires id in world.instances && world.instances[id] == StageOf(world, id).r
      modifies this
      ensures Valid() && start == old(start)
      ensures (forall n :: plan(n)) && old(world).instances[id].finalizer ==>
                id !in world.instances
                && (old(world).instances[id].state != Unmanaged ==> OwnedBy(world, id) == {})
    {
      var tempo := StageOf(world, id).r;
      if !tempo.finalizer {
        Perform(Stops(id));
        return;
      }
      if tempo.state != Unmanaged {
        var found := FindClusterRoleObjects(id);
        Perform(Lists(id, found.Some?));
        if found.None? { return; }
        DeleteObjects(id);
        if StageOf(world, id).failed {
          Perform(Stops(id));
          return;
        }
      }
      var ok := Call();
      Perform(Releases(id, ok));
    }

    /** Reconcile as far as the finalizer is concerned; what follows for a managed instance is applied by the caller. */
    method Reconcile(id: Id) returns (proceed: bool)
      requires Valid() && StageOf(world, id).Idle?
      modifies this
      ensures Valid() && start == old(start)
      ensures proceed ==> StageOf(world, id).Applying? && Held(world, id) && !world.instances[id].deleting
      ensures (forall n :: plan(n)) && id in old(world).instances && !old(world).instances[id].deleting ==>
                Held(world, id) && (proceed <==> old(world).instances[id].state == Managed)
      ensures (forall n :: plan(n)) && id in old(world).instances && old(world).instances[id].deleting
                && old(world).instances[id].finalizer ==>
                id !in world.instances && (old(world).instances[id].state != Unmanaged ==> OwnedBy(world, id) == {})
    {
      var ok := Call();
      Perform(Fetches(id, ok));
      if !StageOf(world, id).Fetched? { return false; }
      if StageOf(world, id).r.deleting {
        ReconcileDeleted(id);
        return false;
      }
      ok := true;
      if !StageOf(world, id).r.finalizer { ok := Call(); }
      Perform(Registers(id, ok));
      proceed := StageOf(world, id).Applying?;
    }
  }
}
