/** What reconcileManagedObjects guarantees: immutable fields survive, pruning is exact, and repeated runs converge. */
module ReconcileSafety {
  import opened Wrappers
  import opened Strings
  import opened Mutate
  import opened Reconcile

  // ---------- identity of stored objects ----------

  ghost predicate SameIdentity(a: Content, b: Content) {
    a.StatefulSet? ==> b.StatefulSet? && b.sts.selector == a.sts.selector && SameClaims(b.sts.claims, a.sts.claims)
  }

  /** Every object is either newer than the old store, or the same one as before with its immutable fields intact. */
  ghost predicate Lineage(s: Store, s': Store) {
    forall key :: key in s'.objects && s'.objects[key].uid < s.nextUid ==>
      key in s.objects && s.objects[key].uid == s'.objects[key].uid
      && SameIdentity(s.objects[key].content, s'.objects[key].content)
  }

  lemma LineageTransitive(a: Store, b: Store, c: Store)
    requires Lineage(a, b) && Lineage(b, c) && a.nextUid <= b.nextUid
    ensures Lineage(a, c)
  {}

  /** The copy is the stored object, or nobody knows it yet. */
  predicate Held(local: Object, s: Store, key: Key) {
    local.uid != 0 ==> key in s.objects && s.objects[key].uid == local.uid
  }

  function UidAt(s: Store, key: Key): nat { if key in s.objects then s.objects[key].uid else s.nextUid }

  lemma MutatedIdentity(e: Object, d: Object)
    requires Prepared(e, d) && e.uid != 0 && !Refused(e, d)
    ensures SameIdentity(e.content, Mutated(e, d).content) && Mutated(e, d).uid == e.uid
  {
    MutatedIsPrepared(e, d);
    if e.content.StatefulSet? { ImmutableFieldsKept(e, d); }
  }

  /** What is known of an attempt once it is over. */
  ghost predicate SoundOutcome(s: Store, key: Key, a: Applied) {
    && Lineage(s, a.store) && Held(a.local, a.store, key)
    && (a.result.Err? ==> a.store.objects == s.objects && a.store.nextUid == s.nextUid)
    && (a.result.Ok? || IsImmutable(a.result) ==> a.local.uid == UidAt(s, key))
  }

  lemma UpdateOutcome(s: Store, plan: Plan, key: Key, m: Object)
    requires key in s.objects && m.uid == s.objects[key].uid && SameIdentity(s.objects[key].content, m.content)
    ensures SoundOutcome(s, key,
                         Applied(UpdateObject(Called(s), plan, key, m), m, Outcome(plan, Called(s).calls, Updated)))
  {}

  lemma CreateOutcome(s: Store, plan: Plan, key: Key, m: Object)
    requires key !in s.objects && m.uid == 0
    ensures SoundOutcome(s, key, Applied(CreateObject(Called(s), plan, key, m),
                                         if plan(Called(s).calls).None? then m.(uid := s.nextUid) else m,
                                         Outcome(plan, Called(s).calls, Created)))
  {}

  lemma CreateOrUpdateOutcome(s: Store, plan: Plan, key: Key, local: Object, d: Object)
    requires ValidStore(s) && Prepared(local, d) && Held(local, s, key) && key.kind == d.content.Kind()
    ensures SoundOutcome(s, key, CreateOrUpdate(s, plan, key, local, d))
  {
    if plan(s.calls).None? {
      if key in s.objects {
        var e := s.objects[key];
        if !Refused(e, d) {
          MutatedIdentity(e, d);
          UpdateOutcome(s, plan, key, Mutated(e, d));
        }
      } else if !Refused(local, d) {
        MutatedIsPrepared(local, d);
        CreateOutcome(s, plan, key, Mutated(local, d));
      }
    }
  }

  lemma {:induction false} RetriedOutcome(s: Store, plan: Plan, key: Key, local: Object, d: Object, steps: nat)
    requires ValidStore(s) && Prepared(local, d) && Held(local, s, key) && key.kind == d.content.Kind() && steps > 0
    ensures SoundOutcome(s, key, Retried(s, plan, key, local, d, steps))
    decreases steps
  {
    var a := CreateOrUpdate(s, plan, key, local, d);
    CreateOrUpdateFacts(s, plan, key, local, d);
    CreateOrUpdateOutcome(s, plan, key, local, d);
    if a.result == Err(Failed(Conflict)) && steps > 1 {
      RetriedOutcome(a.store, plan, key, a.local, d, steps - 1);
      LineageTransitive(s, a.store, Retried(s, plan, key, local, d, steps).store);
    }
  }

  lemma ApplyOneOutcome(p: Progress, plan: Plan, owner: Owner, m: Manifest)
    requires ValidStore(p.store) && WellBuilt(m)
    ensures var q := ApplyOne(p, plan, owner, m);
            && Lineage(p.store, q.store) && p.errs <= q.errs
            && (q.errs == p.errs ==> q.uids == p.uids + {UidAt(p.store, m.key)})
  {
    if Applicable(owner, m) {
      var d := Desired(owner, m);
      RetriedFacts(p.store, plan, m.key, d, d, DEFAULT_RETRY_STEPS);
      RetriedOutcome(p.store, plan, m.key, d, d, DEFAULT_RETRY_STEPS);
      var a := Retried(p.store, plan, m.key, d, d, DEFAULT_RETRY_STEPS);
      LineageTransitive(p.store, a.store, DeleteObject(a.store, plan, m.key));
    }
  }

  function KeysIn(ms: seq<Manifest>): set<Key> { set i | 0 <= i < |ms| :: ms[i].key }

  ghost predicate SameOutside(s: Store, s': Store, keys: set<Key>) {
    && (forall k :: k !in keys ==>
        (k in s.objects <==> k in s'.objects) && (k in s.objects ==> s.objects[k] == s'.objects[k]))
    && s.log <= s'.log && forall i :: |s.log| <= i < |s'.log| ==> s'.log[i].key in keys
  }

  lemma SameOutsideGrows(s: Store, a: Store, b: Store, keys: set<Key>, key: Key)
    requires SameOutside(s, a, keys) && OnlyAt(a, b, key)
    ensures SameOutside(s, b, keys + {key})
  {
    forall i | |s.log| <= i < |b.log| ensures b.log[i].key in keys + {key} {
      if i < |a.log| { assert b.log[i] == a.log[i]; }
    }
  }

  lemma KeysInGrows(ms: seq<Manifest>)
    requires ms != []
    ensures KeysIn(ms) == KeysIn(ms[..|ms| - 1]) + {ms[|ms| - 1].key}
  {
    var front := ms[..|ms| - 1];
    assert forall i :: 0 <= i < |front| ==> ms[i] == front[i];
    assert ms[|ms| - 1].key in KeysIn(ms);
    forall k | k in KeysIn(front) ensures k in KeysIn(ms) {
      var i :| 0 <= i < |front| && front[i].key == k;
      assert ms[i].key == k;
    }
    forall k | k in KeysIn(ms) ensures k in KeysIn(front) + {ms[|ms| - 1].key} {
      var i :| 0 <= i < |ms| && ms[i].key == k;
      if i < |front| { assert front[i].key == k; }
    }
  }

  /** Applying touches managed objects only, whatever fails. */
  lemma {:induction false} ApplyAllIsLocal(s: Store, plan: Plan, owner: Owner, ms: seq<Manifest>)
    requires ValidStore(s) && AllBuilt(ms)
    ensures var p := ApplyAll(s, plan, owner, ms);
            SameOutside(s, p.store, KeysIn(ms)) && s.nextUid <= p.store.nextUid && Lineage(s, p.store)
  {
    if ms != [] {
      var front := ms[..|ms| - 1];
      ApplyAllIsLocal(s, plan, owner, front);
      var p := ApplyAll(s, plan, owner, front);
      ApplyOneFacts(p, plan, owner, ms[|ms| - 1]);
      ApplyOneOutcome(p, plan, owner, ms[|ms| - 1]);
      KeysInGrows(ms);
      SameOutsideGrows(s, p.store, ApplyAll(s, plan, owner, ms).store, KeysIn(front), ms[|ms| - 1].key);
      LineageTransitive(s, p.store, ApplyAll(s, plan, owner, ms).store);
    }
  }

  // ---------- pruning ----------

  /** The object with this identity is one of the managed ones. */
  predicate IsManaged(s: Store, keys: set<Key>, uid: nat) {
    exists key :: key in keys && key in s.objects && s.objects[key].uid == uid
  }

  /** When every object was applied without error, the identities kept from pruning are those of the managed objects. */
  lemma {:induction false} KeptUids(s: Store, plan: Plan, owner: Owner, ms: seq<Manifest>, uid: nat)
    requires ValidStore(s) && AllBuilt(ms) && ApplyAll(s, plan, owner, ms).errs == 0 && uid < s.nextUid
    ensures uid in ApplyAll(s, plan, owner, ms).uids <==> IsManaged(s, KeysIn(ms), uid)
  {
    if ms != [] {
      var front, last := ms[..|ms| - 1], ms[|ms| - 1];
      var p := ApplyAll(s, plan, owner, front);
      ApplyOneOutcome(p, plan, owner, last);
      KeptUids(s, plan, owner, front, uid);
      ApplyAllIsLocal(s, plan, owner, front);
      KeysInGrows(ms);
      if uid == UidAt(p.store, last.key) {
        assert last.key in s.objects && s.objects[last.key].uid == uid;
      }
      if last.key in s.objects && s.objects[last.key].uid == uid && uid != UidAt(p.store, last.key) {
        assert last.key in KeysIn(front);
      }
    }
  }

  /** The map of owned objects holds objects of the store under their identities. */
  ghost predicate Listed(s: Store, owned: map<nat, Key>) {
    forall uid :: uid in owned ==> owned[uid] in s.objects && s.objects[owned[uid]].uid == uid
  }

  function Unmanaged(owned: map<nat, Key>, ms: seq<Manifest>): set<Key> {
    set uid | uid in owned && owned[uid] !in KeysIn(ms) :: owned[uid]
  }

  ghost predicate LogsDeletions(log: seq<Request>, from: nat, keys: seq<Key>) {
    |log| == from + |keys| && forall i :: from <= i < |log| ==> log[i].op == Deleting && log[i].key == keys[i - from]
  }

  lemma LogsOneMore(log: seq<Request>, from: nat, keys: seq<Key>, r: Request)
    requires LogsDeletions(log, from, keys) && r.op == Deleting
    ensures LogsDeletions(log + [r], from, keys + [r.key])
  {
    var log', keys' := log + [r], keys + [r.key];
    forall i | from <= i < |log'|
      ensures log'[i].op == Deleting && log'[i].key == keys'[i - from]
    {
      if i < |log| { assert log'[i] == log[i]; }
    }
  }

  lemma {:induction false} DeleteAllLog(s: Store, plan: Plan, keys: seq<Key>)
    ensures s.log <= DeleteAll(s, plan, keys).log
    ensures LogsDeletions(DeleteAll(s, plan, keys).log, |s.log|, keys)
  {
    if keys != [] {
      var front, last := keys[..|keys| - 1], keys[|keys| - 1];
      DeleteAllLog(s, plan, front);
      var u := DeleteAll(s, plan, front);
      LogsOneMore(u.log, |s.log|, front, Request(Deleting, last, Deletable(u, plan, last)));
      assert keys == front + [last];
    }
  }

  /** A list of requests that deletes each key of the set once, and does nothing else. */
  ghost predicate DeletesEachOnce(requests: seq<Request>, keys: set<Key>) {
    && (forall i :: 0 <= i < |requests| ==> requests[i].op == Deleting)
    && (forall i, j :: 0 <= i < j < |requests| ==> requests[i].key != requests[j].key)
    && (set i | 0 <= i < |requests| :: requests[i].key) == keys
  }

  lemma KeysOfOrder(s: Store, owned: map<nat, Key>, prune: map<nat, Key>, order: seq<nat>, keys: set<Key>)
    requires Listed(s, owned) && PruneOrder(order, prune)
    requires forall uid :: uid in prune <==> uid in owned && owned[uid] in keys
    requires forall uid :: uid in prune ==> prune[uid] == owned[uid]
    ensures forall uid :: uid in order ==> uid in prune
    ensures var ks := KeysOf(order, prune);
            (forall i, j :: 0 <= i < j < |ks| ==> ks[i] != ks[j])
            && (set i | 0 <= i < |ks| :: ks[i]) == set uid | uid in owned && owned[uid] in keys :: owned[uid]
  {
    OrderIsOwned(order, prune);
    var ks := KeysOf(order, prune);
    forall i, j | 0 <= i < j < |ks| ensures ks[i] != ks[j] {
      assert order[i] in owned && order[j] in owned;
    }
    forall uid | uid in owned && owned[uid] in keys ensures exists i :: 0 <= i < |ks| && ks[i] == owned[uid] {
      assert uid in Elements(order);
      var i :| 0 <= i < |order| && order[i] == uid;
      assert ks[i] == owned[uid];
    }
    assert forall i :: 0 <= i < |ks| ==> ks[i] == owned[order[i]];
  }

  /** Deletions of different keys at the end of a log. */
  lemma LoggedTail(before: seq<Request>, log: seq<Request>, ks: seq<Key>, keys: set<Key>)
    requires before <= log && LogsDeletions(log, |before|, ks)
    requires (forall i, j :: 0 <= i < j < |ks| ==> ks[i] != ks[j]) && (set i | 0 <= i < |ks| :: ks[i]) == keys
    ensures DeletesEachOnce(log[|before|..], keys)
  {
    var tail := log[|before|..];
    assert forall i :: 0 <= i < |tail| ==> tail[i].op == Deleting && tail[i].key == ks[i];
    assert (set i | 0 <= i < |tail| :: tail[i].key) == (set i | 0 <= i < |ks| :: ks[i]);
  }

  lemma PrunedTail(s: Store, p: Progress, plan: Plan, order: seq<nat>, ms: seq<Manifest>, owned: map<nat, Key>,
                   s': Store)
    requires Listed(s, owned) && PrunedInOrder(p.store, plan, order, owned - p.uids, s')
    requires forall uid :: uid in owned ==> (uid in p.uids <==> owned[uid] in KeysIn(ms))
    ensures p.store.log <= s'.log && DeletesEachOnce(s'.log[|p.store.log|..], Unmanaged(owned, ms))
  {
    var prune := owned - p.uids;
    var keys := (set uid | uid in owned :: owned[uid]) - KeysIn(ms);
    KeysOfOrder(s, owned, prune, order, keys);
    assert Unmanaged(owned, ms) == set uid | uid in owned && owned[uid] in keys :: owned[uid];
    DeleteAllLog(p.store, plan, KeysOf(order, prune));
    LoggedTail(p.store.log, s'.log, KeysOf(order, prune), Unmanaged(owned, ms));
  }

  /** Prune exactness: without an error in applying, exactly the owned objects that are not managed are deleted, each
      by one request, even if a managed object had to be deleted for an immutable change; after any error none is. */
  lemma PruneExactness(s: Store, plan: Plan, owner: Owner, ms: seq<Manifest>, owned: map<nat, Key>, s': Store,
                       failed: bool)
    requires ValidStore(s) && AllBuilt(ms) && Listed(s, owned)
    requires Reconciles(s, plan, owner, ms, owned, s', failed)
    ensures var p := ApplyAll(s, plan, owner, ms);
            && SameOutside(s, p.store, KeysIn(ms)) && p.store.log <= s'.log
            && DeletesEachOnce(s'.log[|p.store.log|..], if p.errs == 0 then Unmanaged(owned, ms) else {})
  {
    var p := ApplyAll(s, plan, owner, ms);
    ApplyAllIsLocal(s, plan, owner, ms);
    if p.errs == 0 {
      forall uid | uid in owned ensures uid in p.uids <==> owned[uid] in KeysIn(ms) {
        KeptUids(s, plan, owner, ms, uid);
      }
      var order :| Pruned(p, plan, order, owned, s', failed);
      PrunedTail(s, p, plan, order, ms, owned, s');
    } else {
      assert s'.log[|p.store.log|..] == [];
    }
  }

  // ---------- immutable fields over many runs ----------

  lemma {:induction false} DeleteAllShrinks(s: Store, plan: Plan, keys: seq<Key>)
    requires ValidStore(s)
    ensures var t := DeleteAll(s, plan, keys);
            && ValidStore(t) && t.nextUid == s.nextUid
            && forall k :: k in t.objects ==> k in s.objects && t.objects[k] == s.objects[k]
  {
    if keys != [] {
      DeleteAllShrinks(s, plan, keys[..|keys| - 1]);
      DeleteIsLocal(DeleteAll(s, plan, keys[..|keys| - 1]), plan, keys[|keys| - 1]);
    }
  }

  lemma {:induction false} MissingFails(s: Store, plan: Plan, keys: seq<Key>, key: Key)
    requires ValidStore(s) && key in keys && key !in s.objects
    ensures |s.log| <= |DeleteAll(s, plan, keys).log| && AnyFailed(DeleteAll(s, plan, keys).log, |s.log|)
  {
    var front, last := keys[..|keys| - 1], keys[|keys| - 1];
    assert keys == front + [last];
    var u := DeleteAll(s, plan, front);
    DeleteAllLog(s, plan, front);
    DeleteAllShrinks(s, plan, front);
    if last != key { MissingFails(s, plan, front, key); }
    FailedGrows(u.log, Request(Deleting, last, Deletable(u, plan, last)), |s.log|);
  }

  /** An object that is to be pruned but no longer there is reported as an error. */
  lemma MissingIsReported(s: Store, plan: Plan, owner: Owner, ms: seq<Manifest>, owned: map<nat, Key>, s': Store,
                          failed: bool, uid: nat)
    requires ValidStore(s) && AllBuilt(ms) && Reconciles(s, plan, owner, ms, owned, s', failed)
    requires uid in owned && uid !in ApplyAll(s, plan, owner, ms).uids
    requires owned[uid] !in ApplyAll(s, plan, owner, ms).store.objects
    ensures failed
  {
    var p := ApplyAll(s, plan, owner, ms);
    if p.errs == 0 {
      hide ApplyAll;
      var order :| Pruned(p, plan, order, owned, s', failed);
      MissingInOrder(p.store, plan, order, owned - p.uids, s', uid);
    }
  }

  lemma MissingInOrder(s: Store, plan: Plan, order: seq<nat>, prune: map<nat, Key>, s': Store, uid: nat)
    requires ValidStore(s) && PrunedInOrder(s, plan, order, prune, s')
    requires uid in prune && prune[uid] !in s.objects
    ensures AnyFailed(s'.log, |s.log|)
  {
    hide DeleteAll, ValidStore, AnyFailed;
    OrderIsOwned(order, prune);
    assert uid in Elements(order);
    var i :| 0 <= i < |order| && order[i] == uid;
    assert KeysOf(order, prune)[i] == prune[uid];
    MissingFails(s, plan, KeysOf(order, prune), prune[uid]);
  }

  lemma ReconcileKeepsLineage(s: Store, plan: Plan, owner: Owner, ms: seq<Manifest>, owned: map<nat, Key>, s': Store,
                              failed: bool)
    requires ValidStore(s) && AllBuilt(ms) && Reconciles(s, plan, owner, ms, owned, s', failed)
    ensures ValidStore(s') && s.nextUid <= s'.nextUid && Lineage(s, s')
  {
    var p := ApplyAll(s, plan, owner, ms);
    ApplyAllIsLocal(s, plan, owner, ms);
    if p.errs == 0 {
      var order :| Pruned(p, plan, order, owned, s', failed);
      OrderIsOwned(order, owned - p.uids);
      DeleteAllShrinks(p.store, plan, KeysOf(order, owned - p.uids));
    }
  }

  /** One run: what was desired, what was listed as owned, and the store it left behind. */
  datatype Round = Round(owner: Owner, desired: seq<Manifest>, owned: map<nat, Key>, result: Store, failed: bool)

  ghost predicate IsHistory(s: Store, plan: Plan, rounds: seq<Round>)
    requires ValidStore(s)
    decreases |rounds|
  {
    rounds == [] ||
    var r := rounds[0];
    AllBuilt(r.desired) && Reconciles(s, plan, r.owner, r.desired, r.owned, r.result, r.failed)
    && (ReconcileKeepsLineage(s, plan, r.owner, r.desired, r.owned, r.result, r.failed);
        IsHistory(r.result, plan, rounds[1..]))
  }

  function Last(s: Store, rounds: seq<Round>): Store { if rounds == [] then s else rounds[|rounds| - 1].result }

  /** Over any history of runs, with any desired objects and any failing calls, a StatefulSet that is still the same
      object has the same selector and the same claim names, annotations and specs. */
  lemma {:induction false} ImmutableForever(s: Store, plan: Plan, rounds: seq<Round>)
    requires ValidStore(s) && IsHistory(s, plan, rounds)
    ensures Lineage(s, Last(s, rounds))
    decreases |rounds|
  {
    if rounds != [] {
      var r := rounds[0];
      hide Lineage, ValidStore, Reconciles, AllBuilt;
      ReconcileKeepsLineage(s, plan, r.owner, r.desired, r.owned, r.result, r.failed);
      ImmutableForever(r.result, plan, rounds[1..]);
      LineageTransitive(s, r.result, Last(r.result, rounds[1..]));
    }
  }
}
