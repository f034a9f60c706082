/** Repeated runs of reconcileManagedObjects settle: with an API server that does not fail and no other writer, the
    third run finds nothing to do. */
module Convergence {
  import opened Wrappers
  import opened Strings
  import opened Mutate
  import opened Reconcile
  import opened ReconcileSafety
  import opened Retrying

  ghost predicate AllSupported(owner: Owner, ms: seq<Manifest>) {
    forall i :: 0 <= i < |ms| ==> Supported(owner, ms[i])
  }

  // ---------- one object over several runs ----------

  predicate OfKind(stored: Option<Object>, m: Manifest) {
    stored.Some? ==> stored.value.content.Kind() == m.key.kind && stored.value.uid > 0
  }

  /** Whatever identity it would be given, a further run leaves the object as it is. */
  ghost predicate Settled(stored: Option<Object>, owner: Owner, m: Manifest)
    requires WellBuilt(m) && OfKind(stored, m)
  {
    forall uid: nat :: uid > 0 ==> Next(stored, owner, m, uid) == stored
  }

  /** An object that exists after a run is what was asked for, and stays. */
  lemma SettledAfterOne(stored: Option<Object>, owner: Owner, m: Manifest, uid: nat)
    requires WellBuilt(m) && OfKind(stored, m) && uid > 0
    requires Supported(owner, m) && Next(stored, owner, m, uid).Some?
    ensures var o := Next(stored, owner, m, uid);
            OfKind(o, m) && Settled(o, owner, m) && Conforms(o.value, Desired(owner, m))
  {
    var d := Desired(owner, m);
    CreatedAsDesired(d);
    if stored.Some? {
      NewContentKind(false, stored.value.content, d);
      UpdateSettles(stored.value, d);
    } else {
      RecreatedSettles(d, uid);
    }
  }

  lemma RecreatedSettles(d: Object, uid: nat)
    requires d.uid == 0 && uid > 0 && !d.content.Unsupported?
    ensures !Refused(d.(uid := uid), d) && Mutated(d.(uid := uid), d) == d.(uid := uid) && Conforms(d.(uid := uid), d)
  {
    CreatedAsDesired(d);
    if d.content.Deployment? || d.content.Service? { MergeTwice(d.labels, d.labels); }
    if d.content.Service? { MergeTwice(d.content.svc.selector, d.content.svc.selector); }
    if d.content.Deployment? { MergeTwice(d.content.dpl.strategy, d.content.dpl.strategy); }
  }

  /** Two runs settle any object: the first may delete it, the second creates it again. */
  lemma SettledAfterTwo(stored: Option<Object>, owner: Owner, m: Manifest, uid: nat, uid': nat)
    requires WellBuilt(m) && OfKind(stored, m) && uid > 0 && uid' > 0
    requires OfKind(Next(stored, owner, m, uid), m)
    ensures var o := Next(Next(stored, owner, m, uid), owner, m, uid');
            OfKind(o, m) && Settled(o, owner, m)
            && (Supported(owner, m) ==> o.Some? && Conforms(o.value, Desired(owner, m)))
  {
    if Supported(owner, m) {
      var first := Next(stored, owner, m, uid);
      if first.Some? { SettledAfterOne(stored, owner, m, uid); }
      SettledAfterOne(first, owner, m, uid');
    }
  }

  // ---------- all objects ----------

  ghost predicate DistinctKeys(ms: seq<Manifest>) {
    forall i, j :: 0 <= i < j < |ms| ==> ms[i].key != ms[j].key
  }

  lemma StoredOfKind(s: Store, m: Manifest)
    requires ValidStore(s)
    ensures OfKind(Lookup(s, m.key), m)
  {}

  /** The object under the manifest's key went one step further. */
  ghost predicate Stepped(s: Store, s': Store, owner: Owner, m: Manifest)
    requires ValidStore(s) && WellBuilt(m)
  {
    exists uid: nat :: uid > 0 && Lookup(s', m.key) == Next(Lookup(s, m.key), owner, m, uid)
  }

  /** Every object that is applied is mild: it meets at most four conflicts and no other fault. */
  ghost predicate MildApply(s: Store, plan: Plan, owner: Owner, ms: seq<Manifest>)
    requires ValidStore(s) && AllBuilt(ms)
  {
    ms == [] ||
    var front, last := ms[..|ms| - 1], ms[|ms| - 1];
    var p := ApplyAll(s, plan, owner, front);
    MildApply(s, plan, owner, front) && Mild(plan, p.store, ApplyOne(p, plan, owner, last).store)
  }

  lemma LastStep(s: Store, plan: Plan, owner: Owner, ms: seq<Manifest>)
    requires ValidStore(s) && AllBuilt(ms) && MildApply(s, plan, owner, ms) && ms != []
    ensures AllBuilt(ms[..|ms| - 1]) && WellBuilt(ms[|ms| - 1]) && MildApply(s, plan, owner, ms[..|ms| - 1])
    ensures var p, q := ApplyAll(s, plan, owner, ms[..|ms| - 1]), ApplyAll(s, plan, owner, ms);
            TakesStep(p, q, owner, ms[|ms| - 1]) && OnlyAt(p.store, q.store, ms[|ms| - 1].key)
  {
    var p := ApplyAll(s, plan, owner, ms[..|ms| - 1]);
    MildStep(p, plan, owner, ms[|ms| - 1]);
    ApplyOneFacts(p, plan, owner, ms[|ms| - 1]);
  }

  /** An object that is not applied last, and the one that is. */
  lemma StepBefore(s: Store, p: Progress, q: Progress, owner: Owner, m: Manifest, key: Key)
    requires ValidStore(s) && WellBuilt(m) && m.key != key
    requires Stepped(s, p.store, owner, m) && OnlyAt(p.store, q.store, key)
    ensures Stepped(s, q.store, owner, m)
  {
    assert Lookup(q.store, m.key) == Lookup(p.store, m.key);
  }

  lemma StepNow(s: Store, p: Progress, q: Progress, owner: Owner, m: Manifest, keys: set<Key>)
    requires ValidStore(s) && ValidStore(p.store) && WellBuilt(m) && m.key !in keys
    requires SameOutside(s, p.store, keys) && TakesStep(p, q, owner, m)
    ensures Stepped(s, q.store, owner, m)
  {
    assert Lookup(p.store, m.key) == Lookup(s, m.key);
  }

  lemma FrontDiffers(ms: seq<Manifest>)
    requires DistinctKeys(ms) && ms != []
    ensures DistinctKeys(ms[..|ms| - 1]) && ms[|ms| - 1].key !in KeysIn(ms[..|ms| - 1])
    ensures forall i :: 0 <= i < |ms| - 1 ==> ms[i].key != ms[|ms| - 1].key
  {
    assert forall i :: 0 <= i < |ms| - 1 ==> ms[..|ms| - 1][i] == ms[i];
  }

  lemma {:induction false} AllStep(s: Store, plan: Plan, owner: Owner, ms: seq<Manifest>, i: nat)
    requires ValidStore(s) && AllBuilt(ms) && MildApply(s, plan, owner, ms) && DistinctKeys(ms) && i < |ms|
    ensures WellBuilt(ms[i]) && Stepped(s, ApplyAll(s, plan, owner, ms).store, owner, ms[i])
  {
    hide *;
    FrontDiffers(ms);
    LastStep(s, plan, owner, ms);
    if i < |ms| - 1 {
      AllStep(s, plan, owner, ms[..|ms| - 1], i);
      EarlierSteps(s, plan, owner, ms, i);
    } else {
      LastSteps(s, plan, owner, ms[..|ms| - 1], ms[|ms| - 1], ApplyAll(s, plan, owner, ms));
    }
  }

  lemma EarlierSteps(s: Store, plan: Plan, owner: Owner, ms: seq<Manifest>, i: nat)
    requires ValidStore(s) && AllBuilt(ms) && MildApply(s, plan, owner, ms) && DistinctKeys(ms) && i < |ms| - 1
    requires AllBuilt(ms[..|ms| - 1]) && WellBuilt(ms[..|ms| - 1][i])
    requires Stepped(s, ApplyAll(s, plan, owner, ms[..|ms| - 1]).store, owner, ms[..|ms| - 1][i])
    ensures WellBuilt(ms[i]) && Stepped(s, ApplyAll(s, plan, owner, ms).store, owner, ms[i])
  {
    hide *;
    FrontDiffers(ms);
    LastStep(s, plan, owner, ms);
    assert ms[..|ms| - 1][i] == ms[i];
    StepBefore(s, ApplyAll(s, plan, owner, ms[..|ms| - 1]), ApplyAll(s, plan, owner, ms), owner, ms[i],
               ms[|ms| - 1].key);
  }

  lemma LastSteps(s: Store, plan: Plan, owner: Owner, front: seq<Manifest>, last: Manifest, q: Progress)
    requires ValidStore(s) && AllBuilt(front) && WellBuilt(last) && last.key !in KeysIn(front)
    requires ValidStore(ApplyAll(s, plan, owner, front).store)
    requires TakesStep(ApplyAll(s, plan, owner, front), q, owner, last)
    ensures Stepped(s, q.store, owner, last)
  {
    hide *;
    ApplyAllIsLocal(s, plan, owner, front);
    StepNow(s, ApplyAll(s, plan, owner, front), q, owner, last, KeysIn(front));
  }

  lemma SupportedSplit(owner: Owner, ms: seq<Manifest>)
    requires ms != []
    ensures AllSupported(owner, ms) <==> AllSupported(owner, ms[..|ms| - 1]) && Supported(owner, ms[|ms| - 1])
  {
    assert forall i :: 0 <= i < |ms| - 1 ==> ms[..|ms| - 1][i] == ms[i];
  }

  lemma {:induction false} ErrorsAreFixed(s: Store, plan: Plan, owner: Owner, ms: seq<Manifest>)
    requires ValidStore(s) && AllBuilt(ms) && MildApply(s, plan, owner, ms)
    ensures ApplyAll(s, plan, owner, ms).errs == 0 <==> AllSupported(owner, ms)
  {
    if ms != [] {
      LastStep(s, plan, owner, ms);
      SupportedSplit(owner, ms);
      ErrorsAreFixed(s, plan, owner, ms[..|ms| - 1]);
    }
  }

  ghost predicate AllSettled(s: Store, owner: Owner, ms: seq<Manifest>)
    requires ValidStore(s) && AllBuilt(ms)
  {
    forall i :: 0 <= i < |ms| ==> OfKind(Lookup(s, ms[i].key), ms[i]) && Settled(Lookup(s, ms[i].key), owner, ms[i])
  }

  lemma {:induction false} SettledWritesNothing(s: Store, plan: Plan, owner: Owner, ms: seq<Manifest>)
    requires ValidStore(s) && AllBuilt(ms) && MildApply(s, plan, owner, ms) && AllSettled(s, owner, ms)
    ensures ApplyAll(s, plan, owner, ms).store.log == s.log && ApplyAll(s, plan, owner, ms).store.objects == s.objects
  {
    if ms != [] {
      var front, last := ms[..|ms| - 1], ms[|ms| - 1];
      assert AllSettled(s, owner, front) by { assert forall i :: 0 <= i < |front| ==> front[i] == ms[i]; }
      SettledWritesNothing(s, plan, owner, front);
      MildStep(ApplyAll(s, plan, owner, front), plan, owner, last);
      assert Settled(Lookup(s, last.key), owner, last);
    }
  }

  // ---------- runs ----------

  /** The objects the operator lists as its own, by labels and namespace. */
  type Ownership = (Key, Object) -> bool

  ghost predicate Lists(owns: Ownership, s: Store, owned: map<nat, Key>) {
    Listed(s, owned) && forall key :: key in s.objects ==>
      (owns(key, s.objects[key]) <==> s.objects[key].uid in owned && owned[s.objects[key].uid] == key)
  }

  ghost predicate ReconcilesListed(s: Store, plan: Plan, owner: Owner, ms: seq<Manifest>, owns: Ownership, s': Store)
    requires ValidStore(s) && AllBuilt(ms)
  {
    exists owned, failed :: Lists(owns, s, owned) && Reconciles(s, plan, owner, ms, owned, s', failed)
  }

  /** Deletions of which none fails remove exactly the listed keys. */
  lemma {:induction false} DeletionsWork(s: Store, plan: Plan, keys: seq<Key>)
    requires NoFailedDelete(DeleteAll(s, plan, keys).log, |s.log|)
    ensures s.log <= DeleteAll(s, plan, keys).log
    ensures forall k :: k in DeleteAll(s, plan, keys).objects <==> k in s.objects && k !in keys
    ensures forall k :: k in DeleteAll(s, plan, keys).objects ==> DeleteAll(s, plan, keys).objects[k] == s.objects[k]
  {
    if keys != [] {
      var front, last := keys[..|keys| - 1], keys[|keys| - 1];
      var u, t := DeleteAll(s, plan, front), DeleteAll(s, plan, keys);
      assert t.log == u.log + [Request(Deleting, last, Deletable(u, plan, last))];
      DeleteAllLog(s, plan, front);
      assert forall i :: 0 <= i < |u.log| ==> t.log[i] == u.log[i];
      DeletionsWork(s, plan, front);
      assert t.log[|u.log|].op == Deleting;
      assert keys == front + [last];
    }
  }

  /** Nothing unmanaged is left that the operator owns. */
  ghost predicate Clean(s: Store, owns: Ownership, ms: seq<Manifest>) {
    forall key :: key in s.objects && key !in KeysIn(ms) ==> !owns(key, s.objects[key])
  }

  lemma PrunedKeys(s: Store, p: Progress, order: seq<nat>, owned: map<nat, Key>, ms: seq<Manifest>, key: Key)
    requires Listed(s, owned) && PruneOrder(order, owned - p.uids)
    requires forall uid :: uid in owned ==> (uid in p.uids <==> owned[uid] in KeysIn(ms))
    requires forall uid :: uid in order ==> uid in owned - p.uids
    ensures key in KeysOf(order, owned - p.uids) <==> key in Unmanaged(owned, ms)
  {
    var prune := owned - p.uids;
    var ks := KeysOf(order, prune);
    if key in ks {
      var i :| 0 <= i < |ks| && ks[i] == key;
      assert order[i] in prune;
    }
    if key in Unmanaged(owned, ms) {
      var uid :| uid in owned && owned[uid] == key && owned[uid] !in KeysIn(ms);
      assert uid in Elements(order);
      var i :| 0 <= i < |order| && order[i] == uid;
      assert ks[i] == key;
    }
  }

  /** What a run does to the objects: every managed one takes a step, and if all are supported, no owned object that is
      not managed survives. */
  ghost predicate RunEffect(s: Store, s': Store, owner: Owner, ms: seq<Manifest>, owns: Ownership)
    requires ValidStore(s) && AllBuilt(ms)
  {
    && ValidStore(s')
    && (forall i :: 0 <= i < |ms| ==> Stepped(s, s', owner, ms[i]))
    && (AllSupported(owner, ms) ==> Clean(s', owns, ms))
  }

  lemma PrunedRun(s: Store, plan: Plan, owner: Owner, ms: seq<Manifest>, owned: map<nat, Key>, s': Store, failed: bool)
    requires ValidStore(s) && AllBuilt(ms) && Listed(s, owned) && ApplyAll(s, plan, owner, ms).errs == 0
    requires NoFailedDelete(s'.log, |ApplyAll(s, plan, owner, ms).store.log|)
    requires Reconciles(s, plan, owner, ms, owned, s', failed)
    ensures var p := ApplyAll(s, plan, owner, ms);
            && (forall k :: k in s'.objects <==> k in p.store.objects && k !in Unmanaged(owned, ms))
            && (forall k :: k in s'.objects ==> s'.objects[k] == p.store.objects[k])
  {
    var p := ApplyAll(s, plan, owner, ms);
    var order :| Pruned(p, plan, order, owned, s', failed);
    forall uid | uid in owned ensures uid in p.uids <==> owned[uid] in KeysIn(ms) {
      KeptUids(s, plan, owner, ms, uid);
    }
    OrderIsOwned(order, owned - p.uids);
    DeletionsWork(p.store, plan, KeysOf(order, owned - p.uids));
    forall k ensures k in KeysOf(order, owned - p.uids) <==> k in Unmanaged(owned, ms) {
      PrunedKeys(s, p, order, owned, ms, k);
    }
  }

  lemma ManagedSurvive(s: Store, p: Progress, s': Store, owner: Owner, m: Manifest, pruned: set<Key>)
    requires ValidStore(s) && WellBuilt(m) && Stepped(s, p.store, owner, m) && m.key !in pruned
    requires forall k :: k in s'.objects <==> k in p.store.objects && k !in pruned
    requires forall k :: k in s'.objects ==> s'.objects[k] == p.store.objects[k]
    ensures Stepped(s, s', owner, m)
  {
    assert Lookup(s', m.key) == Lookup(p.store, m.key);
  }

  lemma CleanAfter(s: Store, p: Progress, s': Store, ms: seq<Manifest>, owns: Ownership, owned: map<nat, Key>)
    requires SameOutside(s, p.store, KeysIn(ms)) && Lists(owns, s, owned)
    requires forall k :: k in s'.objects <==> k in p.store.objects && k !in Unmanaged(owned, ms)
    requires forall k :: k in s'.objects ==> s'.objects[k] == p.store.objects[k]
    ensures Clean(s', owns, ms)
  {}

  /** A run in which every object meets at most four conflicts, no call is turned down for another reason while objects
      are applied, and no delete fails. */
  ghost predicate Smooth(s: Store, plan: Plan, owner: Owner, ms: seq<Manifest>, s': Store)
    requires ValidStore(s) && AllBuilt(ms)
  {
    MildApply(s, plan, owner, ms) && NoFailedDelete(s'.log, |ApplyAll(s, plan, owner, ms).store.log|)
  }

  lemma RunHasEffect(s: Store, plan: Plan, owner: Owner, ms: seq<Manifest>, owns: Ownership, s': Store)
    requires ValidStore(s) && AllBuilt(ms) && DistinctKeys(ms) && Smooth(s, plan, owner, ms, s')
    requires ReconcilesListed(s, plan, owner, ms, owns, s')
    ensures RunEffect(s, s', owner, ms, owns)
  {
    var owned, failed :| Lists(owns, s, owned) && Reconciles(s, plan, owner, ms, owned, s', failed);
    var p := ApplyAll(s, plan, owner, ms);
    ReconcileKeepsLineage(s, plan, owner, ms, owned, s', failed);
    ErrorsAreFixed(s, plan, owner, ms);
    ApplyAllIsLocal(s, plan, owner, ms);
    forall i | 0 <= i < |ms| ensures Stepped(s, p.store, owner, ms[i]) { AllStep(s, plan, owner, ms, i); }
    if p.errs == 0 {
      PrunedRun(s, plan, owner, ms, owned, s', failed);
      CleanAfter(s, p, s', ms, owns, owned);
      forall i | 0 <= i < |ms| ensures Stepped(s, s', owner, ms[i]) {
        assert ms[i].key in KeysIn(ms);
        ManagedSurvive(s, p, s', owner, ms[i], Unmanaged(owned, ms));
      }
    }
  }

  /** In a run whose objects are mild a failure is reported exactly if an object is not supported or a delete failed. */
  lemma RunReports(s: Store, plan: Plan, owner: Owner, ms: seq<Manifest>, owned: map<nat, Key>, s': Store, failed: bool)
    requires ValidStore(s) && AllBuilt(ms) && MildApply(s, plan, owner, ms)
    requires Reconciles(s, plan, owner, ms, owned, s', failed)
    ensures failed
       <==> !AllSupported(owner, ms) || !NoFailedDelete(s'.log, |ApplyAll(s, plan, owner, ms).store.log|)
  {
    var p := ApplyAll(s, plan, owner, ms);
    ErrorsAreFixed(s, plan, owner, ms);
    if p.errs == 0 {
      var order :| Pruned(p, plan, order, owned, s', failed);
      OrderIsOwned(order, owned - p.uids);
      DeleteAllLog(p.store, plan, KeysOf(order, owned - p.uids));
    }
  }

  lemma TwoStepsSettle(a: Store, b: Store, c: Store, owner: Owner, m: Manifest)
    requires ValidStore(a) && ValidStore(b) && WellBuilt(m)
    requires Stepped(a, b, owner, m) && Stepped(b, c, owner, m)
    ensures OfKind(Lookup(c, m.key), m) && Settled(Lookup(c, m.key), owner, m)
    ensures Supported(owner, m) ==> m.key in c.objects && Conforms(c.objects[m.key], Desired(owner, m))
  {
    StoredOfKind(a, m);
    StoredOfKind(b, m);
    var uid: nat :| uid > 0 && Lookup(b, m.key) == Next(Lookup(a, m.key), owner, m, uid);
    var uid': nat :| uid' > 0 && Lookup(c, m.key) == Next(Lookup(b, m.key), owner, m, uid');
    SettledAfterTwo(Lookup(a, m.key), owner, m, uid, uid');
  }

  lemma QuietPrune(s: Store, plan: Plan, owner: Owner, ms: seq<Manifest>, owned: map<nat, Key>, s': Store, failed: bool)
    requires ValidStore(s) && AllBuilt(ms) && Listed(s, owned)
    requires NoFailedDelete(s'.log, |ApplyAll(s, plan, owner, ms).store.log|)
    requires ApplyAll(s, plan, owner, ms).errs == 0 && Unmanaged(owned, ms) == {}
    requires Reconciles(s, plan, owner, ms, owned, s', failed)
    ensures var p := ApplyAll(s, plan, owner, ms); s'.log == p.store.log && s'.objects == p.store.objects
  {
    hide *;
    PrunedRun(s, plan, owner, ms, owned, s', failed);
    PruneExactness(s, plan, owner, ms, owned, s', failed);
    var from := |ApplyAll(s, plan, owner, ms).store.log|;
    NothingDeleted(s'.log[from..]);
    assert s'.log == s'.log[..from] + s'.log[from..];
  }

  /** A store in which every managed object is settled and nothing unmanaged is owned is left as it is. */
  lemma QuietRun(s: Store, plan: Plan, owner: Owner, ms: seq<Manifest>, owns: Ownership, s': Store)
    requires ValidStore(s) && AllBuilt(ms) && AllSettled(s, owner, ms) && Smooth(s, plan, owner, ms, s')
    requires AllSupported(owner, ms) ==> Clean(s, owns, ms)
    requires ReconcilesListed(s, plan, owner, ms, owns, s')
    ensures s'.log == s.log && s'.objects == s.objects
  {
    var owned, failed :| Lists(owns, s, owned) && Reconciles(s, plan, owner, ms, owned, s', failed);
    SettledWritesNothing(s, plan, owner, ms);
    ErrorsAreFixed(s, plan, owner, ms);
    if ApplyAll(s, plan, owner, ms).errs == 0 {
      NothingToPrune(s, owns, owned, ms);
      QuietPrune(s, plan, owner, ms, owned, s', failed);
    }
  }

  lemma NothingToPrune(s: Store, owns: Ownership, owned: map<nat, Key>, ms: seq<Manifest>)
    requires Lists(owns, s, owned) && Clean(s, owns, ms)
    ensures Unmanaged(owned, ms) == {}
  {}

  lemma FirstDeleted(requests: seq<Request>, keys: set<Key>)
    requires DeletesEachOnce(requests, keys) && requests != []
    ensures requests[0].key in keys
  {
    assert requests[0].key in set i | 0 <= i < |requests| :: requests[i].key;
  }

  lemma NothingDeleted(requests: seq<Request>)
    requires DeletesEachOnce(requests, {})
    ensures requests == []
  {
    if requests != [] {
      FirstDeleted(requests, {});
      assert false;
    }
  }

  /** Convergence: for fixed desired objects with distinct keys, smooth runs and no other writer, two runs reach a store
      that satisfies every desired object, and a third run writes nothing, even if the first had to delete a StatefulSet
      for an immutable field. */
  lemma Converges(plan: Plan, owner: Owner, ms: seq<Manifest>, owns: Ownership, s0: Store, s1: Store,
                  s2: Store, s3: Store)
    requires AllBuilt(ms) && DistinctKeys(ms)
    requires ValidStore(s0) && ReconcilesListed(s0, plan, owner, ms, owns, s1) && Smooth(s0, plan, owner, ms, s1)
    requires ValidStore(s1) && ReconcilesListed(s1, plan, owner, ms, owns, s2) && Smooth(s1, plan, owner, ms, s2)
    requires ValidStore(s2) && ReconcilesListed(s2, plan, owner, ms, owns, s3) && Smooth(s2, plan, owner, ms, s3)
    ensures s3.log == s2.log && s3.objects == s2.objects
    ensures forall i :: 0 <= i < |ms| && Supported(owner, ms[i]) ==>
              ms[i].key in s2.objects && Conforms(s2.objects[ms[i].key], Desired(owner, ms[i]))
    ensures AllSupported(owner, ms) ==> Clean(s2, owns, ms)
  {
    RunHasEffect(s0, plan, owner, ms, owns, s1);
    RunHasEffect(s1, plan, owner, ms, owns, s2);
    forall i | 0 <= i < |ms|
      ensures OfKind(Lookup(s2, ms[i].key), ms[i]) && Settled(Lookup(s2, ms[i].key), owner, ms[i])
      ensures Supported(owner, ms[i]) ==>
                ms[i].key in s2.objects && Conforms(s2.objects[ms[i].key], Desired(owner, ms[i]))
    {
      TwoStepsSettle(s0, s1, s2, owner, ms[i]);
    }
    QuietRun(s2, plan, owner, ms, owns, s3);
  }

  // ---------- an API server that does not fail ----------

  ghost predicate Reliable(plan: Plan) { forall n :: plan(n).None? }

  lemma {:induction false} ReliableConflicts(plan: Plan, from: nat, to: nat)
    requires Reliable(plan)
    ensures Conflicts(plan, from, to) == 0
  {
    if from < to { ReliableConflicts(plan, from, to - 1); }
  }

  lemma ReliableIsMild(p: Progress, plan: Plan, owner: Owner, m: Manifest)
    requires ValidStore(p.store) && WellBuilt(m) && Reliable(plan)
    ensures Mild(plan, p.store, ApplyOne(p, plan, owner, m).store)
  {
    ReliableConflicts(plan, p.store.calls, ApplyOne(p, plan, owner, m).store.calls);
    if Applicable(owner, m) {
      var a := ApplyOneAttempts(p, plan, owner, m);
      FinishedCalls(p, plan, owner, m, a);
      ReliableAttempts(p, plan, owner, m, a);
      hide Conflicts, AsPlanned, Applicable, ValidStore;
    }
  }

  lemma ReliableAttempts(p: Progress, plan: Plan, owner: Owner, m: Manifest, a: Applied)
    requires ValidStore(p.store) && WellBuilt(m) && Reliable(plan) && Attempted(p, plan, owner, m, a)
    ensures IsImmutable(a.result) ==> Deletable(a.store, plan, m.key)
  {
    hide Conflicts;
  }

  lemma {:induction false} ReliableApplies(s: Store, plan: Plan, owner: Owner, ms: seq<Manifest>)
    requires ValidStore(s) && AllBuilt(ms) && Reliable(plan)
    ensures MildApply(s, plan, owner, ms)
  {
    if ms != [] {
      hide Mild, Reliable;
      ReliableApplies(s, plan, owner, ms[..|ms| - 1]);
      ReliableIsMild(ApplyAll(s, plan, owner, ms[..|ms| - 1]), plan, owner, ms[|ms| - 1]);
    }
  }

  /** Different keys that are there are deleted without an error. */
  lemma {:induction false} ReliableDeletes(s: Store, plan: Plan, keys: seq<Key>)
    requires Reliable(plan) && (forall i, j :: 0 <= i < j < |keys| ==> keys[i] != keys[j])
    requires forall k :: k in keys ==> k in s.objects
    ensures NoFailedDelete(DeleteAll(s, plan, keys).log, |s.log|)
    ensures forall k :: k in s.objects && k !in keys ==> k in DeleteAll(s, plan, keys).objects
  {
    if keys != [] {
      var front, last := keys[..|keys| - 1], keys[|keys| - 1];
      ReliableDeletes(s, plan, front);
      var u, t := DeleteAll(s, plan, front), DeleteAll(s, plan, keys);
      assert last !in front;
      assert t.log == u.log + [Request(Deleting, last, true)];
      assert keys == front + [last];
    }
  }

  /** Every run against an API server that does not fail is smooth. */
  lemma ReliableIsSmooth(s: Store, plan: Plan, owner: Owner, ms: seq<Manifest>, owns: Ownership, s': Store)
    requires ValidStore(s) && AllBuilt(ms) && Reliable(plan) && ReconcilesListed(s, plan, owner, ms, owns, s')
    ensures Smooth(s, plan, owner, ms, s')
  {
    ReliableApplies(s, plan, owner, ms);
    var owned, failed :| Lists(owns, s, owned) && Reconciles(s, plan, owner, ms, owned, s', failed);
    var p := ApplyAll(s, plan, owner, ms);
    if p.errs == 0 {
      var order :| Pruned(p, plan, order, owned, s', failed);
      OrderIsOwned(order, owned - p.uids);
      PrunedAreThere(s, plan, owner, ms, owned, order);
      ReliableDeletes(p.store, plan, KeysOf(order, owned - p.uids));
    }
  }

  lemma PrunedAreThere(s: Store, plan: Plan, owner: Owner, ms: seq<Manifest>, owned: map<nat, Key>, order: seq<nat>)
    requires ValidStore(s) && AllBuilt(ms) && Listed(s, owned) && ApplyAll(s, plan, owner, ms).errs == 0
    requires PruneOrder(order, owned - ApplyAll(s, plan, owner, ms).uids)
    requires forall u :: u in order ==> u in owned - ApplyAll(s, plan, owner, ms).uids
    ensures var p := ApplyAll(s, plan, owner, ms);
            var ks := KeysOf(order, owned - p.uids);
            && (forall i, j :: 0 <= i < j < |ks| ==> ks[i] != ks[j])
            && forall k :: k in ks ==> k in p.store.objects
  {
    var p := ApplyAll(s, plan, owner, ms);
    var prune := owned - p.uids;
    forall uid | uid in owned ensures uid in p.uids <==> owned[uid] in KeysIn(ms) {
      KeptUids(s, plan, owner, ms, uid);
    }
    KeysOfOrder(s, owned, prune, order, (set uid | uid in owned :: owned[uid]) - KeysIn(ms));
    ApplyAllIsLocal(s, plan, owner, ms);
    var ks := KeysOf(order, prune);
    forall k | k in ks ensures k in p.store.objects {
      var i :| 0 <= i < |ks| && ks[i] == k;
      assert order[i] in prune && k !in KeysIn(ms);
    }
  }
}
