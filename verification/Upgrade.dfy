/** Upgrading a custom resource through version-ordered steps and storing the result with two separate patches
    (internal/upgrade/upgrade.go). */
module Upgrade {
  import opened Wrappers
  import opened SemVer

  /** A step that only touches the spec; whether it can be carried out in the cluster at all is decided elsewhere. */
  datatype Step<!S> = Step(version: Version, effect: S -> S)

  /** semver.NewVersion. */
  type Parser = string -> Option<Version>

  /** The steps that fail in the cluster, by version. */
  type Failing = Version -> bool

  datatype Cr<S> = Cr(spec: S, operatorVersion: string, tempoVersion: string)

  /** A release of the operator: its own version, the Tempo version it runs, and the steps it ships. */
  datatype Operator<!S> = Operator(version: string, tempoVersion: string, table: seq<Step<S>>)

  datatype UpgradeError = Unparsable | StepFailed

  // ---------- specification ----------

  /** The steps of the table above the version of the instance, in order; a failing step ends the upgrade. */
  ghost function RunSteps<S>(table: seq<Step<S>>, from: Version, fails: Failing, s: S): Option<S> {
    if table == [] then Some(s)
    else
      var before := RunSteps(table[..|table| - 1], from, fails, s);
      var last := table[|table| - 1];
      if before.None? || !Precedes(from, last.version) then before
      else if fails(last.version) then None
      else Some(last.effect(before.value))
  }

  ghost function UpgradeSpec<S>(parse: Parser, op: Operator<S>, fails: Failing, cr: Cr<S>)
    : Result<Cr<S>, UpgradeError>
  {
    if cr.operatorVersion == op.version then Ok(cr)
    else if parse(cr.operatorVersion).None? || parse(op.version).None? then Err(Unparsable)
    else
      var instance := parse(cr.operatorVersion).value;
      if Precedes(parse(op.version).value, instance) then Ok(cr)
      else
        var spec := RunSteps(op.table, instance, fails, cr.spec);
        if spec.None? then Err(StepFailed) else Ok(Cr(spec.value, op.version, op.tempoVersion))
  }

  /** An instance whose numbers are higher than the operator's keeps its spec and its recorded version. */
  lemma NewerIsLeft<S>(parse: Parser, op: Operator<S>, fails: Failing, cr: Cr<S>)
    requires parse(cr.operatorVersion).Some? && parse(op.version).Some?
    requires NumbersLess(parse(op.version).value, parse(cr.operatorVersion).value)
    ensures UpgradeSpec(parse, op, fails, cr) == Ok(cr)
  {
    NumbersDecide(parse(op.version).value, parse(cr.operatorVersion).value);
  }

  lemma {:induction false} RunFailsExactly<S(!new)>(table: seq<Step<S>>, from: Version, fails: Failing, s: S)
    ensures RunSteps(table, from, fails, s).None?
       <==> exists i :: 0 <= i < |table| && Precedes(from, table[i].version) && fails(table[i].version)
  {
    if table != [] {
      var n := |table| - 1;
      RunFailsExactly(table[..n], from, fails, s);
      assert forall i :: 0 <= i < n ==> table[..n][i] == table[i];
      if i :| 0 <= i < n && Precedes(from, table[i].version) && fails(table[i].version) {
        assert Precedes(from, table[..n][i].version);
      }
    }
  }

  /** An upgrade ends in an error exactly if a version cannot be read, or a step above the version of the instance
      fails; it is not tried for an instance that records the operator's version or one that comes after it. */
  lemma UpgradeFailsExactly<S(!new)>(parse: Parser, op: Operator<S>, fails: Failing, cr: Cr<S>)
    ensures cr.operatorVersion == op.version ==> UpgradeSpec(parse, op, fails, cr) == Ok(cr)
    ensures UpgradeSpec(parse, op, fails, cr) == Err(Unparsable)
       <==> cr.operatorVersion != op.version && (parse(cr.operatorVersion).None? || parse(op.version).None?)
    ensures UpgradeSpec(parse, op, fails, cr) == Err(StepFailed)
       <==> && cr.operatorVersion != op.version && parse(cr.operatorVersion).Some? && parse(op.version).Some?
            && !Precedes(VersionOf(parse, op.version), VersionOf(parse, cr.operatorVersion))
            && exists i :: 0 <= i < |op.table| && Precedes(VersionOf(parse, cr.operatorVersion), op.table[i].version)
                           && fails(op.table[i].version)
  {
    if parse(cr.operatorVersion).Some? {
      RunFailsExactly(op.table, VersionOf(parse, cr.operatorVersion), fails, cr.spec);
    }
    hide Precedes, RunSteps;
  }

  /** The part of a table that a release with this version ships. */
  ghost function Shipped<S>(table: seq<Step<S>>, upTo: Version): seq<Step<S>> {
    if table == [] then []
    else
      var before := Shipped(table[..|table| - 1], upTo);
      var last := table[|table| - 1];
      if AtMost(last.version, upTo) then before + [last] else before
  }

  ghost predicate Ascending<S(!new)>(table: seq<Step<S>>) {
    forall i, j :: 0 <= i < j < |table| ==> Precedes(table[i].version, table[j].version)
  }

  ghost predicate AllAtMost<S(!new)>(table: seq<Step<S>>, bound: Version) {
    forall i :: 0 <= i < |table| ==> AtMost(table[i].version, bound)
  }

  // ---------- path independence ----------

  lemma {:induction false} NothingAbove<S(!new)>(table: seq<Step<S>>, upTo: Version, from: Version, fails: Failing,
                                                 s: S)
    requires AllAtMost(table, from)
    ensures RunSteps(Shipped(table, upTo), from, fails, s) == Some(s)
  {
    if table != [] {
      var front, last := table[..|table| - 1], table[|table| - 1];
      assert AllAtMost(front, from) by { assert forall i :: 0 <= i < |front| ==> front[i] == table[i]; }
      NothingAbove(front, upTo, from, fails, s);
      ShippedLast(table, upTo, from, fails, s);
    }
  }

  /** Running the shipped part of a table, in terms of the table without its last step. */
  lemma ShippedLast<S(!new)>(table: seq<Step<S>>, upTo: Version, from: Version, fails: Failing, s: S)
    requires table != []
    ensures var front, last := table[..|table| - 1], table[|table| - 1];
            var before := RunSteps(Shipped(front, upTo), from, fails, s);
            RunSteps(Shipped(table, upTo), from, fails, s) ==
              if !AtMost(last.version, upTo) || before.None? || !Precedes(from, last.version) then before
              else if fails(last.version) then None
              else Some(last.effect(before.value))
  {
    var shipped := Shipped(table, upTo);
    if AtMost(table[|table| - 1].version, upTo) {
      assert shipped[..|shipped| - 1] == Shipped(table[..|table| - 1], upTo);
    }
  }

  /** Stopping at an intermediate version changes neither the outcome nor the result. */
  lemma {:induction false} RunThrough<S(!new)>(table: seq<Step<S>>, v: Version, w: Version, x: Version, fails: Failing,
                                               s: S)
    requires Ascending(table) && AtMost(v, w) && AtMost(w, x)
    ensures var half := RunSteps(Shipped(table, w), v, fails, s);
            RunSteps(Shipped(table, x), v, fails, s) ==
              if half.None? then None else RunSteps(Shipped(table, x), w, fails, half.value)
  {
    if table != [] {
      var front, last := table[..|table| - 1], table[|table| - 1];
      assert Ascending(front) by { assert forall i :: 0 <= i < |front| ==> front[i] == table[i]; }
      RunThrough(front, v, w, x, fails, s);
      ShippedLast(table, w, v, fails, s);
      ShippedLast(table, x, v, fails, s);
      var half := RunSteps(Shipped(table, w), v, fails, s);
      var halfFront := RunSteps(Shipped(front, w), v, fails, s);
      AtMostPrecedes(last.version, w, x);
      AtMostPrecedes(v, w, last.version);
      if half.Some? {
        ShippedLast(table, x, w, fails, half.value);
        if AtMost(last.version, w) {
          BelowLast(table, w);
          NothingAbove(front, x, w, fails, half.value);
          NothingAbove(front, x, w, fails, halfFront.value);
        }
      } else if AtMost(last.version, w) && halfFront.Some? {
        BelowLast(table, w);
        NothingAbove(front, x, w, fails, halfFront.value);
      }
    }
  }

  lemma BelowLast<S(!new)>(table: seq<Step<S>>, bound: Version)
    requires table != [] && Ascending(table) && AtMost(table[|table| - 1].version, bound)
    ensures AllAtMost(table[..|table| - 1], bound)
  {
    var last := table[|table| - 1].version;
    forall i | 0 <= i < |table| - 1 ensures AtMost(table[i].version, bound) {
      assert Precedes(table[i].version, last);
      AtMostPrecedes(table[i].version, last, bound);
      PrecedenceTotal(table[i].version, bound);
      AtMostPrecedes(bound, table[i].version, last);
    }
  }

  /** No step up to a version is selected for an instance that already has it. */
  lemma {:induction false} NoneSelected<S(!new)>(table: seq<Step<S>>, upTo: Version, from: Version, fails: Failing,
                                                 s: S)
    requires AtMost(upTo, from)
    ensures RunSteps(Shipped(table, upTo), from, fails, s) == Some(s)
  {
    if table != [] {
      NoneSelected(table[..|table| - 1], upTo, from, fails, s);
      ShippedLast(table, upTo, from, fails, s);
      AtMostPrecedes(table[|table| - 1].version, upTo, from);
    }
  }

  /** An operator that ships exactly the steps up to its own version. */
  ghost predicate IsRelease<S(!new)>(parse: Parser, table: seq<Step<S>>, op: Operator<S>) {
    parse(op.version).Some? && op.table == Shipped(table, parse(op.version).value)
  }

  function VersionOf(parse: Parser, text: string): Version
    requires parse(text).Some?
  {
    parse(text).value
  }

  /** Upgrade path independence: for v <= w <= x and any ascending table, upgrading to w and then to x fails exactly
      when upgrading to x directly does, and gives the same custom resource. */
  lemma PathIndependence<S(!new)>(parse: Parser, table: seq<Step<S>>, w: Operator<S>, x: Operator<S>,
                                  fails: Failing, cr: Cr<S>)
    requires Ascending(table) && IsRelease(parse, table, w) && IsRelease(parse, table, x)
    requires w.version == x.version ==> w == x
    requires parse(cr.operatorVersion).Some?
    requires AtMost(VersionOf(parse, cr.operatorVersion), VersionOf(parse, w.version))
    requires AtMost(VersionOf(parse, w.version), VersionOf(parse, x.version))
    ensures var direct := UpgradeSpec(parse, x, fails, cr);
            var first := UpgradeSpec(parse, w, fails, cr);
            if first.Err? then direct.Err?
            else
              var second := UpgradeSpec(parse, x, fails, first.value);
              && (direct.Ok? <==> second.Ok?)
              && (direct.Ok? ==> second.value.spec == direct.value.spec
                                 && second.value.operatorVersion == direct.value.operatorVersion == x.version)
              && (direct.Ok? && cr.operatorVersion != x.version ==> second == direct)
  {
    var v := VersionOf(parse, cr.operatorVersion);
    var wv, xv := VersionOf(parse, w.version), VersionOf(parse, x.version);
    AtMostPrecedes(v, wv, xv);
    RunThrough(table, v, wv, xv, fails, cr.spec);
    AtMostPrecedes(xv, v, wv);
    if cr.operatorVersion == x.version {
      NoneSelected(table, wv, v, fails, cr.spec);
      NoneSelected(table, xv, wv, fails, cr.spec);
    }
  }

  // ---------- crash safety ----------

  /** The combined effect of the steps above from and up to upTo. */
  ghost function Effects<S>(table: seq<Step<S>>, from: Version, upTo: Version, s: S): S {
    if table == [] then s
    else
      var before := Effects(table[..|table| - 1], from, upTo, s);
      var last := table[|table| - 1];
      if AtMost(last.version, upTo) && Precedes(from, last.version) then last.effect(before) else before
  }

  ghost predicate Commuting<S(!new)>(table: seq<Step<S>>) {
    forall i, j, s :: 0 <= i < |table| && 0 <= j < |table| ==>
      table[i].effect(table[j].effect(s)) == table[j].effect(table[i].effect(s))
  }

  ghost predicate Idempotent<S(!new)>(table: seq<Step<S>>) {
    forall i, s :: 0 <= i < |table| ==> table[i].effect(table[i].effect(s)) == table[i].effect(s)
  }

  /** Commuting idempotent steps, in ascending order. */
  ghost predicate SafeTable<S(!new)>(table: seq<Step<S>>) {
    Ascending(table) && Commuting(table) && Idempotent(table)
  }

  lemma SafeFront<S(!new)>(table: seq<Step<S>>)
    requires SafeTable(table) && table != []
    ensures SafeTable(table[..|table| - 1])
  {
    assert forall i :: 0 <= i < |table| - 1 ==> table[..|table| - 1][i] == table[i];
  }

  lemma {:induction false} RunHasEffects<S(!new)>(table: seq<Step<S>>, from: Version, upTo: Version, fails: Failing,
                                                  s: S)
    ensures var r := RunSteps(Shipped(table, upTo), from, fails, s);
            (r.Some? ==> r.value == Effects(table, from, upTo, s)) && ((forall v :: !fails(v)) ==> r.Some?)
  {
    if table != [] {
      RunHasEffects(table[..|table| - 1], from, upTo, fails, s);
      ShippedLast(table, upTo, from, fails, s);
    }
  }

  lemma EffectsThrough<S(!new)>(table: seq<Step<S>>, v: Version, w: Version, x: Version, s: S)
    requires Ascending(table) && AtMost(v, w) && AtMost(w, x)
    ensures Effects(table, v, x, s) == Effects(table, w, x, Effects(table, v, w, s))
  {
    var never: Failing := _ => false;
    RunThrough(table, v, w, x, never, s);
    RunHasEffects(table, v, w, never, s);
    RunHasEffects(table, v, x, never, s);
    RunHasEffects(table, w, x, never, Effects(table, v, w, s));
  }

  lemma {:induction false} EffectsCommute<S(!new)>(table: seq<Step<S>>, n: nat, j: nat, from: Version, upTo: Version,
                                                   s: S)
    requires Commuting(table) && n <= |table| && j < |table|
    ensures table[j].effect(Effects(table[..n], from, upTo, s)) == Effects(table[..n], from, upTo, table[j].effect(s))
  {
    if n > 0 {
      EffectsCommute(table, n - 1, j, from, upTo, s);
      assert table[..n][..n - 1] == table[..n - 1];
    }
  }

  lemma {:induction false} EffectsTwice<S(!new)>(table: seq<Step<S>>, from: Version, upTo: Version, s: S)
    requires SafeTable(table)
    ensures Effects(table, from, upTo, Effects(table, from, upTo, s)) == Effects(table, from, upTo, s)
  {
    if table != [] {
      var n := |table| - 1;
      SafeFront(table);
      EffectsTwice(table[..n], from, upTo, s);
      EffectsCommute(table, n, n, from, upTo, Effects(table[..n], from, upTo, s));
    }
  }

  /** Running again from an older version on a spec that is already further changes nothing but to bring it up to
      date. */
  lemma Redo<S(!new)>(table: seq<Step<S>>, v: Version, c: Version, b: Version, y: Version, s: S)
    requires SafeTable(table) && AtMost(v, c) && AtMost(c, b) && AtMost(b, y)
    ensures Effects(table, c, y, Effects(table, v, b, s)) == Effects(table, v, y, s)
  {
    var u := Effects(table, v, c, s);
    AtMostPrecedes(c, b, y);
    EffectsThrough(table, v, c, b, s);
    EffectsThrough(table, c, b, y, Effects(table, c, b, u));
    EffectsTwice(table, c, b, u);
    EffectsThrough(table, c, b, y, u);
    EffectsThrough(table, v, c, y, s);
  }

  /** One reconciliation that tries to upgrade: which steps fail, and which of the two patches the API server
      performs. */
  datatype Attempt<!S> = Attempt(op: Operator<S>, fails: Failing, specPatched: bool, statusPatched: bool)

  /** The stored custom resource after an attempt: without the second patch the new spec stays with the old version. */
  ghost function After<S>(parse: Parser, cr: Cr<S>, a: Attempt<S>): Cr<S> {
    var r := UpgradeSpec(parse, a.op, a.fails, cr);
    if r.Err? || r.value == cr || !a.specPatched then cr
    else if !a.statusPatched then cr.(spec := r.value.spec)
    else r.value
  }

  ghost function AfterAll<S>(parse: Parser, cr: Cr<S>, attempts: seq<Attempt<S>>): Cr<S> {
    if attempts == [] then cr
    else After(parse, AfterAll(parse, cr, attempts[..|attempts| - 1]), attempts[|attempts| - 1])
  }

  /** Releases of one table, none older than the one before, the first no older than lowest. */
  ghost predicate Releases<S(!new)>(parse: Parser, table: seq<Step<S>>, lowest: Version, attempts: seq<Attempt<S>>) {
    && (forall i :: 0 <= i < |attempts| ==>
          IsRelease(parse, table, attempts[i].op) && AtMost(lowest, VersionOf(parse, attempts[i].op.version)))
    && (forall i, j :: 0 <= i < j < |attempts| ==>
          AtMost(VersionOf(parse, attempts[i].op.version), VersionOf(parse, attempts[j].op.version)))
  }

  /** The spec is exactly that of version b, while the recorded version may lag behind. */
  ghost predicate Consistent<S(!new)>(parse: Parser, table: seq<Step<S>>, v: Version, s: S, b: Version, cr: Cr<S>) {
    && parse(cr.operatorVersion).Some?
    && AtMost(v, VersionOf(parse, cr.operatorVersion)) && AtMost(VersionOf(parse, cr.operatorVersion), b)
    && cr.spec == Effects(table, v, b, s)
  }

  lemma SamePrecedenceSameEffects<S(!new)>(table: seq<Step<S>>, from: Version, a: Version, b: Version, s: S)
    requires AtMost(a, b) && AtMost(b, a)
    ensures Effects(table, from, a, s) == Effects(table, from, b, s)
  {
    if table != [] {
      SamePrecedenceSameEffects(table[..|table| - 1], from, a, b, s);
      AtMostPrecedes(table[|table| - 1].version, a, b);
      AtMostPrecedes(table[|table| - 1].version, b, a);
    }
  }

  lemma AttemptKeepsConsistent<S(!new)>(parse: Parser, table: seq<Step<S>>, v: Version, s: S, b: Version, cr: Cr<S>,
                                        a: Attempt<S>)
    returns (b': Version)
    requires SafeTable(table) && Consistent(parse, table, v, s, b, cr)
    requires IsRelease(parse, table, a.op) && AtMost(b, VersionOf(parse, a.op.version))
    ensures Consistent(parse, table, v, s, b', After(parse, cr, a))
    ensures b' == b || b' == VersionOf(parse, a.op.version)
    ensures UpgradeSpec(parse, a.op, a.fails, cr).Ok? ==>
              UpgradeSpec(parse, a.op, a.fails, cr).value.spec == Effects(table, v, VersionOf(parse, a.op.version), s)
              && UpgradeSpec(parse, a.op, a.fails, cr).value.operatorVersion == a.op.version
  {
    var c, y := VersionOf(parse, cr.operatorVersion), VersionOf(parse, a.op.version);
    AtMostPrecedes(c, b, y);
    AtMostPrecedes(v, c, y);
    Redo(table, v, c, b, y, s);
    RunHasEffects(table, c, y, a.fails, cr.spec);
    if cr.operatorVersion == a.op.version { SamePrecedenceSameEffects(table, v, b, y, s); }
    PrecedenceTotal(y, y);
    b' := if After(parse, cr, a) == cr then b else y;
  }

  lemma {:induction false} AttemptsKeepConsistent<S(!new)>(parse: Parser, table: seq<Step<S>>, cr: Cr<S>,
                                                           attempts: seq<Attempt<S>>)
    returns (b: Version)
    requires SafeTable(table) && parse(cr.operatorVersion).Some?
    requires Releases(parse, table, VersionOf(parse, cr.operatorVersion), attempts)
    ensures Consistent(parse, table, VersionOf(parse, cr.operatorVersion), cr.spec, b, AfterAll(parse, cr, attempts))
    ensures b == VersionOf(parse, cr.operatorVersion)
            || exists i :: 0 <= i < |attempts| && b == VersionOf(parse, attempts[i].op.version)
  {
    var v := VersionOf(parse, cr.operatorVersion);
    b := v;
    if attempts == [] {
      PrecedenceTotal(v, v);
      NoneSelected(table, v, v, _ => false, cr.spec);
      RunHasEffects(table, v, v, _ => false, cr.spec);
    } else {
      var front, last := attempts[..|attempts| - 1], attempts[|attempts| - 1];
      assert forall i :: 0 <= i < |front| ==> front[i] == attempts[i];
      b := AttemptsKeepConsistent(parse, table, cr, front);
      b := AttemptKeepsConsistent(parse, table, v, cr.spec, b, AfterAll(parse, cr, front), last);
    }
  }

  /** Crash-safe upgrade: after any attempts by releases of ascending version, each possibly failing in a step or in
      either patch, an attempt that goes through leaves exactly the spec that its release would have made of the
      original in one go. */
  lemma {:induction false} CrashSafeUpgrade<S(!new)>(parse: Parser, table: seq<Step<S>>, cr: Cr<S>,
                                                     attempts: seq<Attempt<S>>)
    requires SafeTable(table) && parse(cr.operatorVersion).Some? && attempts != []
    requires Releases(parse, table, VersionOf(parse, cr.operatorVersion), attempts)
    requires var last := attempts[|attempts| - 1];
             last.specPatched && last.statusPatched
             && UpgradeSpec(parse, last.op, last.fails, AfterAll(parse, cr, attempts[..|attempts| - 1])).Ok?
    ensures var last, stored := attempts[|attempts| - 1], AfterAll(parse, cr, attempts);
            var direct := UpgradeSpec(parse, last.op, _ => false, cr);
            direct.Ok? && stored.spec == direct.value.spec && stored.operatorVersion == last.op.version
  {
    var front, last := attempts[..|attempts| - 1], attempts[|attempts| - 1];
    var v, y := VersionOf(parse, cr.operatorVersion), VersionOf(parse, last.op.version);
    assert forall i :: 0 <= i < |front| ==> front[i] == attempts[i];
    var b := AttemptsKeepConsistent(parse, table, cr, front);
    var b' := AttemptKeepsConsistent(parse, table, v, cr.spec, b, AfterAll(parse, cr, front), last);
    RunHasEffects(table, v, y, _ => false, cr.spec);
    if cr.operatorVersion == last.op.version {
      PrecedenceTotal(v, v);
      NoneSelected(table, v, v, _ => false, cr.spec);
    }
  }
}
