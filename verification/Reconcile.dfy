/** Applying desired objects to the cluster and pruning what is no longer desired (internal/controller/tempo/common.go),
    against an API server on which every call may fail. */
module Reconcile {
  import opened Wrappers
  import opened Strings
  import opened Mutate

  datatype Key = Key(kind: Kind, namespace: string, name: string)

  /** One of the objects the operator manages, as built from the custom resource. */
  datatype Manifest = Manifest(key: Key, obj: Object)

  /** Why the API server turns a call down; the answer to the n-th call is fixed by a plan the code cannot see. */
  datatype Fault = Conflict | Denied

  type Plan = nat -> Option<Fault>

  datatype Op = Creating | Updating | Deleting

  datatype Request = Request(op: Op, key: Key, ok: bool)

  /** The objects of the cluster, and every write request ever made. */
  datatype Store = Store(objects: map<Key, Object>, nextUid: nat, calls: nat, log: seq<Request>)

  datatype ApiError = Failed(fault: Fault) | NotFound | Mutation(error: MutateError)

  datatype Operation = Created | Updated | Unchanged

  datatype Owner = Owner(namespace: string, id: string)

  const DEFAULT_RETRY_STEPS := 5

  // ---------- the API server ----------

  function Called(s: Store): Store { s.(calls := s.calls + 1) }

  function Logged(s: Store, op: Op, key: Key, ok: bool): Store {
    s.(calls := s.calls + 1, log := s.log + [Request(op, key, ok)])
  }

  function CreateObject(s: Store, plan: Plan, key: Key, o: Object): Store {
    if plan(s.calls).Some? then Logged(s, Creating, key, false)
    else Logged(s.(objects := s.objects[key := o.(uid := s.nextUid)], nextUid := s.nextUid + 1), Creating, key, true)
  }

  function UpdateObject(s: Store, plan: Plan, key: Key, o: Object): Store {
    if plan(s.calls).Some? then Logged(s, Updating, key, false)
    else Logged(s.(objects := s.objects[key := o]), Updating, key, true)
  }

  predicate Deletable(s: Store, plan: Plan, key: Key) { plan(s.calls).None? && key in s.objects }

  function DeleteObject(s: Store, plan: Plan, key: Key): Store {
    if Deletable(s, plan, key) then Logged(s.(objects := s.objects - {key}), Deleting, key, true)
    else Logged(s, Deleting, key, false)
  }

  /** What the API server guarantees of the objects it stores. */
  ghost predicate ValidObjects(objects: map<Key, Object>, nextUid: nat) {
    && nextUid > 0
    && (forall key :: key in objects ==> objects[key].content.Kind() == key.kind && 0 < objects[key].uid < nextUid)
    && (forall a, b :: a in objects && b in objects && objects[a].uid == objects[b].uid ==> a == b)
  }

  ghost predicate ValidStore(s: Store) { ValidObjects(s.objects, s.nextUid) }

  // ---------- specification ----------

  /** What came of one object: the new store, the object as the operator holds it afterwards, and the outcome. */
  datatype Applied = Applied(store: Store, local: Object, result: Result<Operation, ApiError>)

  /** A local copy that may be handed to the mutate function. */
  predicate Prepared(local: Object, d: Object) {
    local.content.Kind() == d.content.Kind() && (local.uid == 0 ==> local.content == d.content)
  }

  function Outcome(plan: Plan, call: nat, done: Operation): Result<Operation, ApiError> {
    if plan(call).Some? then Err(Failed(plan(call).value)) else Ok(done)
  }

  ghost function CreateOrUpdate(s: Store, plan: Plan, key: Key, local: Object, d: Object): Applied
    requires ValidStore(s) && Prepared(local, d) && key.kind == d.content.Kind()
  {
    var s1 := Called(s);
    if plan(s.calls).Some? then Applied(s1, local, Err(Failed(plan(s.calls).value)))
    else
      var found := key in s.objects;
      var e := if found then s.objects[key] else local;
      var refusal := Refusal(e.uid == 0, e.content, d.content);
      if refusal.Some? then Applied(s1, e, Err(Mutation(refusal.value)))
      else
        var m := Mutated(e, d);
        if !found then
          var s2 := CreateObject(s1, plan, key, m);
          Applied(s2, if plan(s1.calls).None? then m.(uid := s1.nextUid) else m, Outcome(plan, s1.calls, Created))
        else if m == e then Applied(s1, e, Ok(Unchanged))
        else Applied(UpdateObject(s1, plan, key, m), m, Outcome(plan, s1.calls, Updated))
  }

  ghost predicate SameElsewhere(a: map<Key, Object>, b: map<Key, Object>, key: Key) {
    forall k :: k != key ==> (k in a <==> k in b) && (k in a ==> a[k] == b[k])
  }

  predicate Concerns(log: seq<Request>, from: nat, key: Key) {
    forall i :: from <= i < |log| ==> log[i].key == key
  }

  /** Nothing was done to any other object, and the server's guarantees hold. */
  ghost predicate OnlyAt(s: Store, s': Store, key: Key) {
    && ValidStore(s') && s.nextUid <= s'.nextUid
    && SameElsewhere(s.objects, s'.objects, key)
    && s.log <= s'.log && Concerns(s'.log, |s.log|, key)
  }

  lemma NewContentOfNew(d: Object)
    ensures NewContent(true, d.content, d) == d.content
  {
    if d.content.Service? { MergeTwice(d.content.svc.selector, d.content.svc.selector); }
    if d.content.Deployment? { MergeTwice(d.content.dpl.strategy, d.content.dpl.strategy); }
  }

  lemma NewContentKind(isNew: bool, c: Content, d: Object)
    requires c.Kind() == d.content.Kind()
    ensures NewContent(isNew, c, d).Kind() == c.Kind()
  {}

  lemma MutatedIsPrepared(e: Object, d: Object)
    requires Prepared(e, d)
    ensures Prepared(Mutated(e, d), d) && Mutated(e, d).uid == e.uid
  {
    NewContentOfNew(d);
    NewContentKind(e.uid == 0, e.content, d);
  }

  lemma CreateIsLocal(s: Store, plan: Plan, key: Key, o: Object)
    requires ValidStore(s) && o.content.Kind() == key.kind && key !in s.objects
    ensures OnlyAt(s, CreateObject(s, plan, key, o), key)
  {}

  lemma UpdateIsLocal(s: Store, plan: Plan, key: Key, o: Object)
    requires ValidStore(s) && o.content.Kind() == key.kind && key in s.objects && o.uid == s.objects[key].uid
    ensures OnlyAt(s, UpdateObject(s, plan, key, o), key)
  {}

  lemma DeleteIsLocal(s: Store, plan: Plan, key: Key)
    requires ValidStore(s)
    ensures OnlyAt(s, DeleteObject(s, plan, key), key)
  {}

  lemma OnlyAtTransitive(a: Store, b: Store, c: Store, key: Key)
    requires OnlyAt(a, b, key) && OnlyAt(b, c, key)
    ensures OnlyAt(a, c, key)
  {
    forall i | |a.log| <= i < |c.log| ensures c.log[i].key == key {
      if i < |b.log| { assert c.log[i] == b.log[i]; }
    }
  }

  lemma CreateOrUpdateFacts(s: Store, plan: Plan, key: Key, local: Object, d: Object)
    requires ValidStore(s) && Prepared(local, d) && key.kind == d.content.Kind()
    ensures var a := CreateOrUpdate(s, plan, key, local, d);
            OnlyAt(s, a.store, key) && Prepared(a.local, d)
  {
    var s1 := Called(s);
    var e := if key in s.objects then s.objects[key] else local;
    MutatedIsPrepared(e, d);
    if key in s.objects {
      UpdateIsLocal(s1, plan, key, Mutated(e, d));
    } else {
      CreateIsLocal(s1, plan, key, Mutated(e, d));
    }
    assert OnlyAt(s, s1, key);
    var a := CreateOrUpdate(s, plan, key, local, d);
    if a.store != s1 { OnlyAtTransitive(s, s1, a.store, key); }
  }

  /** retry.RetryOnConflict: only conflicts are tried again, on the copy the last attempt left behind. */
  ghost function Retried(s: Store, plan: Plan, key: Key, local: Object, d: Object, steps: nat): Applied
    requires ValidStore(s) && Prepared(local, d) && key.kind == d.content.Kind() && steps > 0
    decreases steps
  {
    var a := CreateOrUpdate(s, plan, key, local, d);
    CreateOrUpdateFacts(s, plan, key, local, d);
    if a.result == Err(Failed(Conflict)) && steps > 1 then Retried(a.store, plan, key, a.local, d, steps - 1) else a
  }

  lemma {:induction false} RetriedFacts(s: Store, plan: Plan, key: Key, local: Object, d: Object, steps: nat)
    requires ValidStore(s) && Prepared(local, d) && key.kind == d.content.Kind() && steps > 0
    ensures OnlyAt(s, Retried(s, plan, key, local, d, steps).store, key)
    decreases steps
  {
    var a := CreateOrUpdate(s, plan, key, local, d);
    CreateOrUpdateFacts(s, plan, key, local, d);
    if a.result == Err(Failed(Conflict)) && steps > 1 {
      RetriedFacts(a.store, plan, key, a.local, d, steps - 1);
      OnlyAtTransitive(s, a.store, Retried(s, plan, key, local, d, steps).store, key);
    }
  }

  predicate IsNamespaceScoped(kind: Kind) { !kind.KClusterRole? && !kind.KClusterRoleBinding? }

  /** SetControllerReference refuses an owner in another namespace, and a second controller. */
  predicate CanOwn(owner: Owner, m: Manifest) {
    m.key.namespace == owner.namespace && (m.obj.owner.Some? ==> m.obj.owner.value == owner.id)
  }

  predicate Applicable(owner: Owner, m: Manifest) { IsNamespaceScoped(m.key.kind) ==> CanOwn(owner, m) }

  function Desired(owner: Owner, m: Manifest): Object {
    if IsNamespaceScoped(m.key.kind) then m.obj.(owner := Some(owner.id)) else m.obj
  }

  /** Cluster-scoped objects are always applicable, and get no owner; all others need an owner in their own
      namespace. */
  lemma ScopeDecides(owner: Owner, m: Manifest)
    ensures m.key.kind == KClusterRole || m.key.kind == KClusterRoleBinding ==>
              Applicable(owner, m) && Desired(owner, m) == m.obj
    ensures m.key.kind != KClusterRole && m.key.kind != KClusterRoleBinding ==>
              && (Applicable(owner, m) <==>
                    m.key.namespace == owner.namespace && (m.obj.owner == None || m.obj.owner == Some(owner.id)))
              && Desired(owner, m) == m.obj.(owner := Some(owner.id))
  {}

  predicate IsImmutable(r: Result<Operation, ApiError>) {
    r == Err(Mutation(ImmutableSelector)) || r == Err(Mutation(ImmutableClaims))
  }

  /** A built object has the kind its key says, and no identity of its own. */
  predicate WellBuilt(m: Manifest) { m.obj.uid == 0 && m.obj.content.Kind() == m.key.kind }

  ghost predicate AllBuilt(ms: seq<Manifest>) { forall i :: 0 <= i < |ms| ==> WellBuilt(ms[i]) }

  /** The state of the loop over the managed objects: the identities that must not be pruned, and the errors so far. */
  datatype Progress = Progress(store: Store, uids: set<nat>, errs: nat)

  ghost function ApplyOne(p: Progress, plan: Plan, owner: Owner, m: Manifest): Progress
    requires ValidStore(p.store) && WellBuilt(m)
  {
    if !Applicable(owner, m) then p.(errs := p.errs + 1)
    else
      var d := Desired(owner, m);
      var a := Retried(p.store, plan, m.key, d, d, DEFAULT_RETRY_STEPS);
      var uids := p.uids + {a.local.uid};
      if IsImmutable(a.result) then
        Progress(DeleteObject(a.store, plan, m.key), uids, p.errs + if Deletable(a.store, plan, m.key) then 0 else 1)
      else Progress(a.store, uids, p.errs + if a.result.Err? then 1 else 0)
  }

  lemma ApplyOneFacts(p: Progress, plan: Plan, owner: Owner, m: Manifest)
    requires ValidStore(p.store) && WellBuilt(m)
    ensures OnlyAt(p.store, ApplyOne(p, plan, owner, m).store, m.key)
  {
    if Applicable(owner, m) {
      var d := Desired(owner, m);
      var a := Retried(p.store, plan, m.key, d, d, DEFAULT_RETRY_STEPS);
      RetriedFacts(p.store, plan, m.key, d, d, DEFAULT_RETRY_STEPS);
      DeleteIsLocal(a.store, plan, m.key);
      OnlyAtTransitive(p.store, a.store, DeleteObject(a.store, plan, m.key), m.key);
    }
  }

  ghost function ApplyAll(s: Store, plan: Plan, owner: Owner, ms: seq<Manifest>): (p: Progress)
    requires ValidStore(s) && AllBuilt(ms)
    ensures ValidStore(p.store)
  {
    if ms == [] then Progress(s, {}, 0)
    else
      var p := ApplyAll(s, plan, owner, ms[..|ms| - 1]);
      ApplyOneFacts(p, plan, owner, ms[|ms| - 1]);
      ApplyOne(p, plan, owner, ms[|ms| - 1])
  }

  lemma ApplyAllStep(s: Store, plan: Plan, owner: Owner, ms: seq<Manifest>, i: nat)
    requires ValidStore(s) && AllBuilt(ms) && i < |ms|
    ensures ApplyAll(s, plan, owner, ms[..i + 1]) == ApplyOne(ApplyAll(s, plan, owner, ms[..i]), plan, owner, ms[i])
  {
    assert ms[..i + 1][..i] == ms[..i];
  }

  /** One more object is reflected in the store, the error count and the identities to keep. */
  ghost predicate Noted(p: Progress, q: Progress, store: Store, ok: bool, uid: Option<nat>) {
    && q.store == store && q.errs == (if ok then p.errs else p.errs + 1)
    && q.uids == if uid.Some? then p.uids + {uid.value} else p.uids
  }

  ghost predicate Accounted(p: Progress, store: Store, errs: nat, prune: map<nat, Key>, owned: map<nat, Key>) {
    store == p.store && errs == p.errs && prune == owned - p.uids
  }

  lemma AccountedStep(p: Progress, q: Progress, before: Store, errs: nat, prune: map<nat, Key>, owned: map<nat, Key>,
                      after: Store, ok: bool, uid: Option<nat>)
    requires Accounted(p, before, errs, prune, owned) && Noted(p, q, after, ok, uid)
    ensures Accounted(q, after, if ok then errs else errs + 1, if uid.Some? then prune - {uid.value} else prune, owned)
  {}

  ghost function DeleteAll(s: Store, plan: Plan, keys: seq<Key>): Store {
    if keys == [] then s else DeleteObject(DeleteAll(s, plan, keys[..|keys| - 1]), plan, keys[|keys| - 1])
  }

  /** An order in which the map of objects to prune happens to be visited. */
  ghost predicate PruneOrder(order: seq<nat>, prune: map<nat, Key>) {
    Distinct(order) && Elements(order) == prune.Keys
  }

  function KeysOf(order: seq<nat>, owned: map<nat, Key>): seq<Key>
    requires forall u :: u in order ==> u in owned
  {
    seq(|order|, i requires 0 <= i < |order| => assert order[i] in order; owned[order[i]])
  }

  lemma OrderIsOwned(order: seq<nat>, prune: map<nat, Key>)
    requires PruneOrder(order, prune)
    ensures forall u :: u in order ==> u in prune
  {
    assert forall u :: u in order ==> u in Elements(order);
  }

  /** Every object of the map is deleted, one after the other. */
  ghost predicate PrunedInOrder(s: Store, plan: Plan, order: seq<nat>, prune: map<nat, Key>, s': Store) {
    PruneOrder(order, prune) && (OrderIsOwned(order, prune); s' == DeleteAll(s, plan, KeysOf(order, prune)))
  }

  predicate AnyFailed(log: seq<Request>, from: nat) {
    exists i :: from <= i < |log| && !log[i].ok
  }

  /** One run of reconcileManagedObjects takes the store s to s'. */
  ghost predicate Reconciles(s: Store, plan: Plan, owner: Owner, ms: seq<Manifest>, owned: map<nat, Key>, s': Store,
                             failed: bool)
    requires ValidStore(s) && AllBuilt(ms)
  {
    var p := ApplyAll(s, plan, owner, ms);
    if p.errs > 0 then s' == p.store && failed
    else exists order :: Pruned(p, plan, order, owned, s', failed)
  }

  ghost predicate Pruned(p: Progress, plan: Plan, order: seq<nat>, owned: map<nat, Key>, s': Store, failed: bool) {
    PrunedInOrder(p.store, plan, order, owned - p.uids, s') && (failed <==> AnyFailed(s'.log, |p.store.log|))
  }

  lemma OrderGrows(s: Store, plan: Plan, order: seq<nat>, u: nat, owned: map<nat, Key>)
    requires u in owned && (forall v :: v in order ==> v in owned)
    requires Distinct(order) && u !in Elements(order)
    ensures Distinct(order + [u]) && Elements(order + [u]) == Elements(order) + {u}
    ensures DeleteAll(s, plan, KeysOf(order + [u], owned))
         == DeleteObject(DeleteAll(s, plan, KeysOf(order, owned)), plan, owned[u])
  {
    var keys := KeysOf(order + [u], owned);
    assert keys[..|keys| - 1] == KeysOf(order, owned);
    assert forall i :: 0 <= i < |order| ==> order[i] in Elements(order);
  }

  lemma FailedGrows(log: seq<Request>, r: Request, from: nat)
    requires from <= |log|
    ensures AnyFailed(log + [r], from) <==> AnyFailed(log, from) || !r.ok
  {
    var longer := log + [r];
    assert longer[|log|] == r;
    assert forall i :: 0 <= i < |log| ==> longer[i] == log[i];
  }

  // ---------- the code, step by step ----------

  class ApiServer {
    var store: Store
    const plan: Plan

    constructor (store: Store, plan: Plan)
      ensures this.store == store && this.plan == plan
    {
      this.store := store;
      this.plan := plan;
    }

    method Get(key: Key) returns (r: Result<Option<Object>, ApiError>)
      modifies this
      ensures store == Called(old(store))
      ensures r == if plan(old(store).calls).Some? then Err(Failed(plan(old(store).calls).value))
                   else Ok(if key in store.objects then Some(store.objects[key]) else None)
    {
      var fault := plan(store.calls);
      store := Called(store);
      if fault.Some? { return Err(Failed(fault.value)); }
      return Ok(if key in store.objects then Some(store.objects[key]) else None);
    }

    /** On success the copy learns the identity the server gave it. */
    method Create(key: Key, live: LiveObject) returns (r: Result<Operation, ApiError>)
      modifies this, live`uid
      ensures store == CreateObject(old(store), plan, key, old(live.State()))
      ensures r == Outcome(plan, old(store).calls, Created)
      ensures live.uid == if r.Ok? then old(store).nextUid else old(live.uid)
    {
      r := Outcome(plan, store.calls, Created);
      var o := live.State();
      if r.Ok? { live.uid := store.nextUid; }
      store := CreateObject(store, plan, key, o);
    }

    method Update(key: Key, live: LiveObject) returns (r: Result<Operation, ApiError>)
      modifies this
      ensures store == UpdateObject(old(store), plan, key, live.State())
      ensures r == Outcome(plan, old(store).calls, Updated)
    {
      r := Outcome(plan, store.calls, Updated);
      store := UpdateObject(store, plan, key, live.State());
    }

    method Delete(key: Key) returns (ok: bool)
      modifies this
      ensures store == DeleteObject(old(store), plan, key)
      ensures ok == Deletable(old(store), plan, key)
    {
      ok := Deletable(store, plan, key);
      store := DeleteObject(store, plan, key);
    }

    /** controllerutil.CreateOrUpdate. */
    method CreateOrUpdateObject(key: Key, live: LiveObject, desired: Object) returns (r: Result<Operation, ApiError>)
      requires ValidStore(store) && Prepared(live.State(), desired) && key.kind == desired.content.Kind()
      modifies this, live
      ensures var a := CreateOrUpdate(old(store), plan, key, old(live.State()), desired);
              store == a.store && r == a.result && live.uid == a.local.uid
              && (r != Err(Mutation(ImmutableSelector)) && r != Err(Mutation(ImmutableClaims))
                  && r != Err(Mutation(MissingMutate))
                  ==> live.State() == a.local)
    {
      var got := Get(key);
      if got.Err? { return Err(got.error); }
      if got.value.None? {
        var err := live.Mutate(desired);
        if err.Some? { return Err(Mutation(err.value)); }
        r := Create(key, live);
        return;
      }
      live.Assign(got.value.value);
      var existing := live.State();
      var err := live.Mutate(desired);
      if err.Some? { return Err(Mutation(err.value)); }
      if live.State() == existing { return Ok(Unchanged); }
      r := Update(key, live);
    }

    method CreateOrUpdateRetrying(key: Key, live: LiveObject, desired: Object) returns (r: Result<Operation, ApiError>)
      requires ValidStore(store) && Prepared(live.State(), desired) && key.kind == desired.content.Kind()
      modifies this, live
      ensures var a := Retried(old(store), plan, key, old(live.State()), desired, DEFAULT_RETRY_STEPS);
              store == a.store && r == a.result && live.uid == a.local.uid
    {
      ghost var whole := Retried(store, plan, key, live.State(), desired, DEFAULT_RETRY_STEPS);
      for i := 0 to DEFAULT_RETRY_STEPS - 1
        invariant ValidStore(store) && Prepared(live.State(), desired)
        invariant Retried(store, plan, key, live.State(), desired, DEFAULT_RETRY_STEPS - i) == whole
      {
        CreateOrUpdateFacts(store, plan, key, live.State(), desired);
        r := CreateOrUpdateObject(key, live, desired);
        if r != Err(Failed(Conflict)) { return; }
      }
      r := CreateOrUpdateObject(key, live, desired);
    }

    /** The body of the loop over the managed objects. */
    method ReconcileObject(owner: Owner, m: Manifest, ghost p: Progress) returns (ok: bool, uid: Option<nat>)
      requires ValidStore(store) && WellBuilt(m) && p.store == store
      modifies this
      ensures ValidStore(store)
      ensures Noted(p, ApplyOne(p, plan, owner, m), store, ok, uid)
    {
      ApplyOneFacts(p, plan, owner, m);
      if IsNamespaceScoped(m.key.kind) && !CanOwn(owner, m) { return false, None; }
      var desired := if IsNamespaceScoped(m.key.kind) then m.obj.(owner := Some(owner.id)) else m.obj;
      var live := new LiveObject(desired);
      var r := CreateOrUpdateRetrying(m.key, live, desired);
      ok := r.Ok?;
      if r.Err? && r.error.Mutation? && !r.error.error.MissingMutate? {
        ok := Delete(m.key);
      }
      uid := Some(live.uid);
    }

    method Prune(prune: map<nat, Key>) returns (failed: bool, ghost order: seq<nat>)
      modifies this
      ensures PrunedInOrder(old(store), plan, order, prune, store)
      ensures failed <==> AnyFailed(store.log, |old(store).log|)
    {
      failed := false;
      order := [];
      var remaining := prune.Keys;
      while remaining != {}
        invariant remaining <= prune.Keys && Distinct(order) && Elements(order) == prune.Keys - remaining
        invariant forall u :: u in order ==> u in prune
        invariant store == DeleteAll(old(store), plan, KeysOf(order, prune))
        invariant |store.log| >= |old(store).log|
        invariant failed <==> AnyFailed(store.log, |old(store).log|)
        decreases |remaining|
      {
        hide DeleteAll, KeysOf, Distinct, Elements, AnyFailed;
        var u :| u in remaining;
        remaining := remaining - {u};
        OrderGrows(old(store), plan, order, u, prune);
        FailedGrows(store.log, Request(Deleting, prune[u], Deletable(store, plan, prune[u])), |old(store).log|);
        order := order + [u];
        var ok := Delete(prune[u]);
        if !ok { failed := true; }
      }
    }

    /** The first half of reconcileManagedObjects: what is still managed leaves the map of objects to prune. */
    method ApplyManaged(owner: Owner, managed: seq<Manifest>, owned: map<nat, Key>)
      returns (errs: nat, prune: map<nat, Key>)
      requires ValidStore(store) && AllBuilt(managed)
      modifies this
      ensures var p := ApplyAll(old(store), plan, owner, managed);
              store == p.store && errs == p.errs && prune == owned - p.uids
    {
      prune := owned;
      errs := 0;
      ghost var s0 := store;
      for i := 0 to |managed|
        invariant ValidStore(store)
        invariant Accounted(ApplyAll(s0, plan, owner, managed[..i]), store, errs, prune, owned)
      {
        ghost var p := ApplyAll(s0, plan, owner, managed[..i]);
        ghost var before := store;
        var ok, uid := ReconcileObject(owner, managed[i], p);
        ApplyAllStep(s0, plan, owner, managed, i);
        AccountedStep(p, ApplyAll(s0, plan, owner, managed[..i + 1]), before, errs, prune, owned, store, ok, uid);
        if !ok { errs := errs + 1; }
        if uid.Some? { prune := prune - {uid.value}; }
      }
      assert managed[..|managed|] == managed;
    }

    /** reconcileManagedObjects. */
    method ReconcileManagedObjects(owner: Owner, managed: seq<Manifest>, owned: map<nat, Key>) returns (failed: bool)
      requires ValidStore(store) && AllBuilt(managed)
      modifies this
      ensures Reconciles(old(store), plan, owner, managed, owned, store, failed)
    {
      var errs, prune := ApplyManaged(owner, managed, owned);
      if errs > 0 { return true; }
      ghost var p := ApplyAll(old(store), plan, owner, managed);
      ghost var order;
      failed, order := Prune(prune);
      assert Pruned(p, plan, order, owned, store, failed);
    }
  }
}
