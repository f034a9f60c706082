/** What conflicts and refused calls make of one managed object (internal/controller/tempo/common.go:150-167), in terms
    of the calls that are made and of what the API server answers to them. */
module Retrying {
  import opened Wrappers
  import opened Mutate
  import opened Reconcile

  // ---------- what was answered ----------

  /** How many of these calls met a conflict. */
  function Conflicts(plan: Plan, from: nat, to: nat): nat {
    if to <= from then 0 else Conflicts(plan, from, to - 1) + if plan(to - 1) == Some(Conflict) then 1 else 0
  }

  /** None of these calls was turned down for another reason. */
  ghost predicate Undenied(plan: Plan, from: nat, to: nat) {
    forall n :: from <= n < to ==> plan(n) != Some(Denied)
  }

  predicate NoFailedDelete(log: seq<Request>, from: nat) {
    forall i :: from <= i < |log| && log[i].op == Deleting ==> log[i].ok
  }

  predicate NoDelete(log: seq<Request>, from: nat) {
    forall i :: from <= i < |log| ==> log[i].op != Deleting
  }

  lemma {:induction false} ConflictsAdd(plan: Plan, a: nat, b: nat, c: nat)
    requires a <= b <= c
    ensures Conflicts(plan, a, c) == Conflicts(plan, a, b) + Conflicts(plan, b, c)
  {
    if b < c { ConflictsAdd(plan, a, b, c - 1); }
  }

  // ---------- what one run should make of one object ----------

  function Lookup(s: Store, key: Key): Option<Object> {
    if key in s.objects then Some(s.objects[key]) else None
  }

  /** An object the operator has code for, in a namespace in which it may own objects. */
  predicate Supported(owner: Owner, m: Manifest) { Applicable(owner, m) && !m.obj.content.Unsupported? }

  /** Created, updated, or deleted because of an immutable field. */
  ghost function Next(stored: Option<Object>, owner: Owner, m: Manifest, uid: nat): Option<Object>
    requires WellBuilt(m) && (stored.Some? ==> stored.value.content.Kind() == m.key.kind)
  {
    if !Supported(owner, m) then stored
    else
      var d := Desired(owner, m);
      if stored.None? then Some(d.(uid := uid))
      else if Refused(stored.value, d) then None
      else Some(Mutated(stored.value, d))
  }

  /** The step of one object is Next, and it writes only if that changes something. */
  ghost predicate TakesStep(p: Progress, q: Progress, owner: Owner, m: Manifest)
    requires ValidStore(p.store) && WellBuilt(m)
  {
    && Lookup(q.store, m.key) == Next(Lookup(p.store, m.key), owner, m, p.store.nextUid)
    && q.errs == (if Supported(owner, m) then p.errs else p.errs + 1)
    && (Lookup(q.store, m.key) == Lookup(p.store, m.key) ==>
        q.store.log == p.store.log && q.store.objects == p.store.objects)
  }

  // ---------- one attempt ----------

  predicate CallFailed(r: Result<Operation, ApiError>) { r.Err? && r.error.Failed? }

  /** A copy from which an attempt can start. */
  predicate Fresh(s: Store, key: Key, local: Object, d: Object) { key in s.objects || local == d }

  /** What attempts do to the object while no call fails. */
  ghost predicate AsPlanned(s: Store, a: Applied, owner: Owner, m: Manifest)
    requires ValidStore(s) && WellBuilt(m)
  {
    var d := Desired(owner, m);
    if d.content.Unsupported? then
      a.store.objects == s.objects && a.store.log == s.log && a.result == Err(Mutation(MissingMutate))
    else if m.key in s.objects && Refused(s.objects[m.key], d) then
      a.store.objects == s.objects && a.store.log == s.log && IsImmutable(a.result)
    else
      && a.result.Ok?
      && Lookup(a.store, m.key)
          == Some(if m.key in s.objects then Mutated(s.objects[m.key], d) else d.(uid := s.nextUid))
      && (Lookup(a.store, m.key) == Lookup(s, m.key) ==> a.store.objects == s.objects && a.store.log == s.log)
  }

  lemma AttemptCalls(s: Store, plan: Plan, key: Key, local: Object, d: Object)
    requires ValidStore(s) && Prepared(local, d) && key.kind == d.content.Kind()
    ensures var a := CreateOrUpdate(s, plan, key, local, d);
            && s.calls < a.store.calls <= s.calls + 2
            && (forall n :: s.calls <= n < a.store.calls - 1 ==> plan(n).None?)
            && (plan(a.store.calls - 1).Some? <==> CallFailed(a.result))
            && (CallFailed(a.result) ==> plan(a.store.calls - 1) == Some(a.result.error.fault))
            && s.log <= a.store.log && NoDelete(a.store.log, |s.log|)
  {}

  /** The object is missing, or an accepted update changes it. */
  ghost predicate WouldChange(s: Store, key: Key, d: Object)
    requires ValidStore(s) && key.kind == d.content.Kind()
  {
    !d.content.Unsupported?
    && (key in s.objects ==> !Refused(s.objects[key], d) && Mutated(s.objects[key], d) != s.objects[key])
  }

  /** A failed attempt leaves everything as it was. */
  lemma AttemptFails(s: Store, plan: Plan, key: Key, local: Object, d: Object)
    requires ValidStore(s) && Prepared(local, d) && key.kind == d.content.Kind() && d.uid == 0
    requires Fresh(s, key, local, d)
    requires CallFailed(CreateOrUpdate(s, plan, key, local, d).result)
    ensures var a := CreateOrUpdate(s, plan, key, local, d);
            && a.store.objects == s.objects && a.store.nextUid == s.nextUid && Fresh(a.store, key, a.local, d)
            && (a.store.log == s.log || WouldChange(s, key, d))
  {
    CreatedAsDesired(d);
  }

  lemma AttemptSucceeds(s: Store, plan: Plan, owner: Owner, m: Manifest, local: Object)
    requires ValidStore(s) && WellBuilt(m) && Prepared(local, Desired(owner, m))
    requires Fresh(s, m.key, local, Desired(owner, m))
    requires !CallFailed(CreateOrUpdate(s, plan, m.key, local, Desired(owner, m)).result)
    ensures AsPlanned(s, CreateOrUpdate(s, plan, m.key, local, Desired(owner, m)), owner, m)
  {
    CreatedAsDesired(Desired(owner, m));
  }

  // ---------- several attempts ----------

  ghost predicate Endured(s: Store, plan: Plan, owner: Owner, m: Manifest, a: Applied, steps: nat)
    requires ValidStore(s) && WellBuilt(m)
  {
    var conflicts := Conflicts(plan, s.calls, a.store.calls);
    && s.calls < a.store.calls <= s.calls + 2 * steps
    && Undenied(plan, s.calls, a.store.calls - 1)
    && (CallFailed(a.result) ==> plan(a.store.calls - 1) == Some(a.result.error.fault))
    && (plan(a.store.calls - 1).Some? ==> CallFailed(a.result))
    && (if a.result == Err(Failed(Conflict)) then conflicts == steps else conflicts < steps)
    && (if CallFailed(a.result) then a.store.objects == s.objects else AsPlanned(s, a, owner, m))
  }

  lemma PlannedLater(s: Store, later: Store, a: Applied, owner: Owner, m: Manifest)
    requires ValidStore(s) && ValidStore(later) && WellBuilt(m) && AsPlanned(later, a, owner, m)
    requires later.objects == s.objects && later.nextUid == s.nextUid
    requires later.log == s.log || WouldChange(s, m.key, Desired(owner, m))
    ensures AsPlanned(s, a, owner, m)
  {
    CreatedAsDesired(Desired(owner, m));
  }

  /** Up to so many attempts: only conflicts are tried again, and all of them having been conflicts is the only way to
      end in one. */
  lemma {:induction false} AttemptsEndure(s: Store, plan: Plan, owner: Owner, m: Manifest, local: Object, steps: nat)
    requires ValidStore(s) && WellBuilt(m) && Prepared(local, Desired(owner, m))
    requires Fresh(s, m.key, local, Desired(owner, m))
    requires steps > 0
    ensures var a := Retried(s, plan, m.key, local, Desired(owner, m), steps);
            Endured(s, plan, owner, m, a, steps) && s.log <= a.store.log && NoDelete(a.store.log, |s.log|)
    decreases steps
  {
    var d := Desired(owner, m);
    var a := CreateOrUpdate(s, plan, m.key, local, d);
    CreateOrUpdateFacts(s, plan, m.key, local, d);
    FirstAttempt(s, plan, owner, m, local);
    hide CreateOrUpdate, Conflicts, AsPlanned, Undenied;
    if a.result != Err(Failed(Conflict)) { FewerSuffice(s, plan, owner, m, a, steps); }
    if a.result == Err(Failed(Conflict)) && steps > 1 {
      AttemptsEndure(a.store, plan, owner, m, a.local, steps - 1);
      var r := Retried(a.store, plan, m.key, a.local, d, steps - 1);
      hide Retried;
      Continue(s, plan, owner, m, a, r, steps);
    }
  }

  lemma FirstAttempt(s: Store, plan: Plan, owner: Owner, m: Manifest, local: Object)
    requires ValidStore(s) && WellBuilt(m) && Prepared(local, Desired(owner, m))
    requires Fresh(s, m.key, local, Desired(owner, m))
    ensures var a := CreateOrUpdate(s, plan, m.key, local, Desired(owner, m));
            && Endured(s, plan, owner, m, a, 1) && s.log <= a.store.log && NoDelete(a.store.log, |s.log|)
            && (CallFailed(a.result) ==>
                  a.store.objects == s.objects && a.store.nextUid == s.nextUid
                  && Fresh(a.store, m.key, a.local, Desired(owner, m))
                  && (a.store.log == s.log || WouldChange(s, m.key, Desired(owner, m))))
  {
    var d := Desired(owner, m);
    var a := CreateOrUpdate(s, plan, m.key, local, d);
    AttemptCalls(s, plan, m.key, local, d);
    OneAttempt(s, plan, a);
    if CallFailed(a.result) {
      AttemptFails(s, plan, m.key, local, d);
    } else {
      AttemptSucceeds(s, plan, owner, m, local);
    }
    hide CreateOrUpdate, Conflicts, AsPlanned;
  }

  lemma FewerSuffice(s: Store, plan: Plan, owner: Owner, m: Manifest, a: Applied, steps: nat)
    requires ValidStore(s) && WellBuilt(m) && Endured(s, plan, owner, m, a, 1)
    requires a.result != Err(Failed(Conflict)) && steps > 0
    ensures Endured(s, plan, owner, m, a, steps)
  {
    hide Conflicts, AsPlanned, Undenied;
  }

  lemma OneAttempt(s: Store, plan: Plan, a: Applied)
    requires s.calls < a.store.calls <= s.calls + 2
    requires forall n :: s.calls <= n < a.store.calls - 1 ==> plan(n).None?
    ensures Conflicts(plan, s.calls, a.store.calls) == if plan(a.store.calls - 1) == Some(Conflict) then 1 else 0
  {
    assert Conflicts(plan, s.calls, s.calls) == 0;
    assert Conflicts(plan, s.calls, s.calls + 1) == if plan(s.calls) == Some(Conflict) then 1 else 0;
  }

  lemma Continue(s: Store, plan: Plan, owner: Owner, m: Manifest, a: Applied, r: Applied, steps: nat)
    requires ValidStore(s) && ValidStore(a.store) && WellBuilt(m) && steps > 1
    requires a.result == Err(Failed(Conflict)) && Endured(s, plan, owner, m, a, 1)
    requires a.store.objects == s.objects && a.store.nextUid == s.nextUid
    requires a.store.log == s.log || WouldChange(s, m.key, Desired(owner, m))
    requires s.log <= a.store.log <= r.store.log && NoDelete(a.store.log, |s.log|)
    requires NoDelete(r.store.log, |a.store.log|)
    requires Endured(a.store, plan, owner, m, r, steps - 1)
    ensures Endured(s, plan, owner, m, r, steps) && NoDelete(r.store.log, |s.log|)
  {
    ConflictsAdd(plan, s.calls, a.store.calls, r.store.calls);
    hide Conflicts;
    if !CallFailed(r.result) { PlannedLater(s, a.store, r, owner, m); }
    forall i | |s.log| <= i < |r.store.log| ensures r.store.log[i].op != Deleting {
      if i < |a.store.log| { assert r.store.log[i] == a.store.log[i]; }
    }
  }

  // ---------- one managed object ----------

  /** The calls for an object met at most four conflicts, and nothing else went wrong. */
  ghost predicate Mild(plan: Plan, s: Store, s': Store) {
    Undenied(plan, s.calls, s'.calls) && Conflicts(plan, s.calls, s'.calls) <= 4 && NoFailedDelete(s'.log, |s.log|)
  }

  /** What ApplyOne makes of the outcome of the attempts. */
  ghost function Finished(p: Progress, plan: Plan, m: Manifest, a: Applied): Progress {
    var uids := p.uids + {a.local.uid};
    if IsImmutable(a.result) then
      Progress(DeleteObject(a.store, plan, m.key), uids, p.errs + if Deletable(a.store, plan, m.key) then 0 else 1)
    else Progress(a.store, uids, p.errs + if a.result.Err? then 1 else 0)
  }

  /** What is known of the attempts for one object. */
  ghost predicate Attempted(p: Progress, plan: Plan, owner: Owner, m: Manifest, a: Applied)
    requires ValidStore(p.store) && WellBuilt(m)
  {
    && Endured(p.store, plan, owner, m, a, DEFAULT_RETRY_STEPS) && ValidStore(a.store)
    && p.store.log <= a.store.log && NoDelete(a.store.log, |p.store.log|)
  }

  lemma ApplyOneAttempts(p: Progress, plan: Plan, owner: Owner, m: Manifest) returns (a: Applied)
    requires ValidStore(p.store) && WellBuilt(m) && Applicable(owner, m)
    ensures Attempted(p, plan, owner, m, a) && ApplyOne(p, plan, owner, m) == Finished(p, plan, m, a)
  {
    var d := Desired(owner, m);
    a := Retried(p.store, plan, m.key, d, d, DEFAULT_RETRY_STEPS);
    AttemptsEndure(p.store, plan, owner, m, d, DEFAULT_RETRY_STEPS);
    RetriedFacts(p.store, plan, m.key, d, d, DEFAULT_RETRY_STEPS);
    hide Retried;
  }

  lemma FinishedCalls(p: Progress, plan: Plan, owner: Owner, m: Manifest, a: Applied)
    requires ValidStore(p.store) && WellBuilt(m) && Attempted(p, plan, owner, m, a)
    ensures var q := Finished(p, plan, m, a);
            && q.store.calls == (if IsImmutable(a.result) then a.store.calls + 1 else a.store.calls)
            && Conflicts(plan, p.store.calls, q.store.calls) ==
                 Conflicts(plan, p.store.calls, a.store.calls)
                 + (if IsImmutable(a.result) && plan(a.store.calls) == Some(Conflict) then 1 else 0)
            && (IsImmutable(a.result) ==>
                  |q.store.log| == |a.store.log| + 1
                  && q.store.log[|a.store.log|] == Request(Deleting, m.key, Deletable(a.store, plan, m.key)))
  {}

  lemma MildAttempts(p: Progress, plan: Plan, owner: Owner, m: Manifest, a: Applied)
    requires ValidStore(p.store) && WellBuilt(m) && Attempted(p, plan, owner, m, a)
    requires Mild(plan, p.store, Finished(p, plan, m, a).store)
    ensures AsPlanned(p.store, a, owner, m) && (IsImmutable(a.result) ==> Deletable(a.store, plan, m.key))
  {
    FinishedCalls(p, plan, owner, m, a);
    FailedHow(a.result);
    var log := Finished(p, plan, m, a).store.log;
    assert IsImmutable(a.result) ==> log[|a.store.log|].op == Deleting;
    hide Conflicts, AsPlanned, Finished, ValidStore, IsImmutable, Deletable;
    assert plan(a.store.calls - 1) != Some(Denied);
    assert a.result != Err(Failed(Denied));
    assert a.result != Err(Failed(Conflict));
    assert !CallFailed(a.result);
    assert IsImmutable(a.result) ==> Deletable(a.store, plan, m.key);
  }

  lemma FailedHow(r: Result<Operation, ApiError>)
    ensures CallFailed(r) ==> r == Err(Failed(Conflict)) || r == Err(Failed(Denied))
  {
    match r
    case Err(Failed(fault)) =>
      match fault {
        case Conflict => assert r == Err(Failed(Conflict));
        case Denied => assert r == Err(Failed(Denied));
      }
    case _ =>
  }

  lemma FinishedStep(p: Progress, plan: Plan, owner: Owner, m: Manifest, a: Applied)
    requires ValidStore(p.store) && WellBuilt(m) && Applicable(owner, m) && AsPlanned(p.store, a, owner, m)
    requires IsImmutable(a.result) ==> Deletable(a.store, plan, m.key)
    ensures TakesStep(p, Finished(p, plan, m, a), owner, m)
  {
    hide Mutated;
  }

  /** A mild object takes the step it would take if no call failed. */
  lemma MildStep(p: Progress, plan: Plan, owner: Owner, m: Manifest)
    requires ValidStore(p.store) && WellBuilt(m) && Mild(plan, p.store, ApplyOne(p, plan, owner, m).store)
    ensures TakesStep(p, ApplyOne(p, plan, owner, m), owner, m)
  {
    if Applicable(owner, m) {
      var a := ApplyOneAttempts(p, plan, owner, m);
      MildAttempts(p, plan, owner, m, a);
      FinishedStep(p, plan, owner, m, a);
    }
  }

  /** Five conflicts end in an error, after which nothing more is tried, and leave the object as it was. */
  lemma FiveConflicts(p: Progress, plan: Plan, owner: Owner, m: Manifest)
    requires ValidStore(p.store) && WellBuilt(m)
    ensures var q := ApplyOne(p, plan, owner, m);
            var conflicts := Conflicts(plan, p.store.calls, q.store.calls);
            && conflicts <= 5
            && (conflicts == 5 ==>
                  q.errs == p.errs + 1 && q.store.objects == p.store.objects
                  && plan(q.store.calls - 1) == Some(Conflict))
  {
    if Applicable(owner, m) {
      var a := ApplyOneAttempts(p, plan, owner, m);
      FinishedConflicts(p, plan, owner, m, a);
    }
  }

  lemma FinishedConflicts(p: Progress, plan: Plan, owner: Owner, m: Manifest, a: Applied)
    requires ValidStore(p.store) && WellBuilt(m) && Attempted(p, plan, owner, m, a)
    ensures var q := Finished(p, plan, m, a);
            var conflicts := Conflicts(plan, p.store.calls, q.store.calls);
            && conflicts <= 5
            && (conflicts == 5 ==>
                  q.errs == p.errs + 1 && q.store.objects == p.store.objects
                  && plan(q.store.calls - 1) == Some(Conflict))
  {
    FinishedCalls(p, plan, owner, m, a);
    FaultsLeave(p, plan, owner, m, a);
    hide Conflicts, AsPlanned, DeleteObject, Deletable, ValidStore, Undenied;
  }

  /** An object whose last call was turned down is left as it was, and counted. */
  lemma FaultsLeave(p: Progress, plan: Plan, owner: Owner, m: Manifest, a: Applied)
    requires ValidStore(p.store) && WellBuilt(m) && Attempted(p, plan, owner, m, a)
    ensures var q := Finished(p, plan, m, a);
            plan(q.store.calls - 1).Some? ==> q.errs == p.errs + 1 && q.store.objects == p.store.objects
    ensures a.result == Err(Failed(Conflict)) ==> plan(a.store.calls - 1) == Some(Conflict)
  {
    hide Conflicts, Mutated, Desired;
  }

  /** A call that is turned down for another reason than a conflict is the last one made for the object, which is left
      as it was and counted as an error. */
  lemma DeniedEnds(p: Progress, plan: Plan, owner: Owner, m: Manifest, n: nat)
    requires ValidStore(p.store) && WellBuilt(m)
    requires p.store.calls <= n < ApplyOne(p, plan, owner, m).store.calls && plan(n) == Some(Denied)
    ensures var q := ApplyOne(p, plan, owner, m);
            n == q.store.calls - 1 && q.errs == p.errs + 1 && q.store.objects == p.store.objects
  {
    if Applicable(owner, m) {
      var a := ApplyOneAttempts(p, plan, owner, m);
      FinishedDenied(p, plan, owner, m, a, n);
    }
  }

  lemma FinishedDenied(p: Progress, plan: Plan, owner: Owner, m: Manifest, a: Applied, n: nat)
    requires ValidStore(p.store) && WellBuilt(m) && Attempted(p, plan, owner, m, a)
    requires p.store.calls <= n < Finished(p, plan, m, a).store.calls && plan(n) == Some(Denied)
    ensures var q := Finished(p, plan, m, a);
            n == q.store.calls - 1 && q.errs == p.errs + 1 && q.store.objects == p.store.objects
  {
    FinishedCalls(p, plan, owner, m, a);
    FaultsLeave(p, plan, owner, m, a);
    hide Conflicts, AsPlanned, DeleteObject, Deletable, ValidStore;
  }

  /** Every attempt is two calls at most, and one more is made to delete. */
  lemma CallsBounded(p: Progress, plan: Plan, owner: Owner, m: Manifest)
    requires ValidStore(p.store) && WellBuilt(m)
    ensures ApplyOne(p, plan, owner, m).store.calls <= p.store.calls + 11
  {
    if Applicable(owner, m) {
      var a := ApplyOneAttempts(p, plan, owner, m);
      FinishedCalls(p, plan, owner, m, a);
      hide Conflicts;
    }
  }
}
