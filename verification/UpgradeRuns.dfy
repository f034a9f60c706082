/** Upgrades over whole runs of the operator, in which every reconciliation tries to upgrade and then writes the status
    (internal/controller/tempo/tempostack_controller.go:149-246). */
module UpgradeRuns {
  import opened Wrappers
  import opened SemVer
  import opened Upgrade
  import opened UpgradeSteps
  import Status
  import Conditions

  /** One reconciliation: an attempt to upgrade, what the status is then computed from, and whether it is stored. */
  datatype Round<!S> = Round(attempt: Attempt<S>, conditions: seq<Status.Condition>, seen: Conditions.Observation,
                             stored: bool)

  ghost predicate ListFails(seen: Conditions.Observation) { Status.LookupFails(seen.lists, seen.metricsGenerator) }

  /** A resource without a recorded version counts as new and is not upgraded. */
  ghost function Tried<S>(parse: Parser, cr: Cr<S>, a: Attempt<S>): Cr<S> {
    if cr.operatorVersion == "" then cr else After(parse, cr, a)
  }

  /** Writing the status: a version that is missing, or was dropped by a failing pod list, becomes the running one. */
  ghost function Refreshed<S>(cr: Cr<S>, r: Round<S>): Cr<S> {
    if !r.stored then cr
    else
      var op := r.attempt.op;
      var status := Conditions.NewStatus(Conditions.StackStatus(r.conditions, cr.operatorVersion), r.seen, op.version);
      Cr(cr.spec, status.operatorVersion,
         if ListFails(r.seen) || cr.tempoVersion == "" then op.tempoVersion else cr.tempoVersion)
  }

  ghost function AfterRound<S>(parse: Parser, cr: Cr<S>, r: Round<S>): Cr<S> {
    Refreshed(Tried(parse, cr, r.attempt), r)
  }

  ghost function AfterRounds<S>(parse: Parser, cr: Cr<S>, rounds: seq<Round<S>>): Cr<S> {
    if rounds == [] then cr
    else AfterRound(parse, AfterRounds(parse, cr, rounds[..|rounds| - 1]), rounds[|rounds| - 1])
  }

  function Attempts<S>(rounds: seq<Round<S>>): (a: seq<Attempt<S>>)
    ensures |a| == |rounds|
  {
    seq(|rounds|, i requires 0 <= i < |rounds| => rounds[i].attempt)
  }

  /** The round stores a status made without the pods although its attempt did not bring the version up to date. */
  ghost predicate Forgets<S>(parse: Parser, cr: Cr<S>, r: Round<S>) {
    r.stored && ListFails(r.seen) && Tried(parse, cr, r.attempt).operatorVersion != r.attempt.op.version
  }

  ghost predicate NeverForgets<S>(parse: Parser, cr: Cr<S>, rounds: seq<Round<S>>) {
    rounds == [] ||
    (NeverForgets(parse, cr, rounds[..|rounds| - 1])
     && !Forgets(parse, AfterRounds(parse, cr, rounds[..|rounds| - 1]), rounds[|rounds| - 1]))
  }

  /** All that an upgrade depends on. */
  ghost predicate Alike<S>(a: Cr<S>, b: Cr<S>) { a.spec == b.spec && a.operatorVersion == b.operatorVersion }

  lemma AlikeAfter<S>(parse: Parser, a: Cr<S>, b: Cr<S>, t: Attempt<S>)
    requires Alike(a, b)
    ensures Alike(After(parse, a, t), After(parse, b, t))
    ensures UpgradeSpec(parse, t.op, t.fails, a).Ok? <==> UpgradeSpec(parse, t.op, t.fails, b).Ok?
  {}

  /** A status write keeps what upgrades depend on exactly unless it forgets. */
  lemma ForgettingMatters<S>(parse: Parser, cr: Cr<S>, r: Round<S>)
    requires Tried(parse, cr, r.attempt).operatorVersion != ""
    ensures Alike(AfterRound(parse, cr, r), Tried(parse, cr, r.attempt)) <==> !Forgets(parse, cr, r)
  {}

  /** Rounds that never forget are nothing but their attempts. */
  lemma {:induction false} RoundsAreAttempts<S(!new)>(parse: Parser, table: seq<Step<S>>, cr: Cr<S>,
                                                      rounds: seq<Round<S>>)
    requires parse("").None? && SafeTable(table) && parse(cr.operatorVersion).Some?
    requires Releases(parse, table, VersionOf(parse, cr.operatorVersion), Attempts(rounds))
    requires NeverForgets(parse, cr, rounds)
    ensures Alike(AfterRounds(parse, cr, rounds), AfterAll(parse, cr, Attempts(rounds)))
  {
    if rounds != [] {
      var front, last := rounds[..|rounds| - 1], rounds[|rounds| - 1];
      var attempts := Attempts(rounds);
      assert Attempts(front) == attempts[..|attempts| - 1];
      FrontReleases(parse, table, VersionOf(parse, cr.operatorVersion), attempts);
      RoundsAreAttempts(parse, table, cr, front);
      var before := AfterRounds(parse, cr, front);
      AlikeAfter(parse, before, AfterAll(parse, cr, Attempts(front)), last.attempt);
      var _ := AttemptsKeepConsistent(parse, table, cr, Attempts(front));
      var _ := AttemptsKeepConsistent(parse, table, cr, attempts);
      ForgettingMatters(parse, before, last);
    }
  }

  lemma FrontReleases<S(!new)>(parse: Parser, table: seq<Step<S>>, lowest: Version, attempts: seq<Attempt<S>>)
    requires attempts != [] && Releases(parse, table, lowest, attempts)
    ensures Releases(parse, table, lowest, attempts[..|attempts| - 1])
  {
    var front := attempts[..|attempts| - 1];
    assert forall i :: 0 <= i < |front| ==> front[i] == attempts[i];
  }

  /** Crash safety of the whole loop: after any rounds by releases of ascending version that never forget, an attempt
      that goes through leaves exactly the spec that its release would have made of the original in one go, whatever
      status is written after it. */
  lemma {:induction false} CrashSafeRounds<S(!new)>(parse: Parser, table: seq<Step<S>>, cr: Cr<S>,
                                                    rounds: seq<Round<S>>)
    requires parse("").None? && SafeTable(table) && parse(cr.operatorVersion).Some? && rounds != []
    requires Releases(parse, table, VersionOf(parse, cr.operatorVersion), Attempts(rounds))
    requires NeverForgets(parse, cr, rounds[..|rounds| - 1])
    requires var last := rounds[|rounds| - 1].attempt;
             last.specPatched && last.statusPatched
             && UpgradeSpec(parse, last.op, last.fails, AfterRounds(parse, cr, rounds[..|rounds| - 1])).Ok?
    ensures var last, stored := rounds[|rounds| - 1].attempt, AfterRounds(parse, cr, rounds);
            var direct := UpgradeSpec(parse, last.op, _ => false, cr);
            direct.Ok? && stored.spec == direct.value.spec && stored.operatorVersion == last.op.version
  {
    var front, last := rounds[..|rounds| - 1], rounds[|rounds| - 1];
    var attempts := Attempts(rounds);
    assert Attempts(front) == attempts[..|attempts| - 1];
    FrontReleases(parse, table, VersionOf(parse, cr.operatorVersion), attempts);
    RoundsAreAttempts(parse, table, cr, front);
    AlikeAfter(parse, AfterRounds(parse, cr, front), AfterAll(parse, cr, Attempts(front)), last.attempt);
    CrashSafeUpgrade(parse, table, cr, attempts);
    var _ := AttemptsKeepConsistent(parse, table, cr, Attempts(front));
  }

  // ---------- one release, any status writes ----------

  /** Some round carried out all steps and stored the spec. */
  ghost predicate SpecStored<S>(parse: Parser, cr: Cr<S>, rounds: seq<Round<S>>) {
    rounds != [] &&
    var front, last := rounds[..|rounds| - 1], rounds[|rounds| - 1].attempt;
    var before := AfterRounds(parse, cr, front);
    SpecStored(parse, cr, front)
    || (before.operatorVersion != last.op.version && last.specPatched
        && UpgradeSpec(parse, last.op, last.fails, before).Ok?)
  }

  ghost predicate SameRelease<S>(op: Operator<S>, rounds: seq<Round<S>>) {
    forall i :: 0 <= i < |rounds| ==> rounds[i].attempt.op == op
  }

  /** While one release runs, and whatever fails and whatever status is written, the recorded version is the old one or
      that of the release, and the spec is that of the direct upgrade exactly once some round has stored it. */
  lemma {:induction false} OneRelease<S(!new)>(parse: Parser, table: seq<Step<S>>, cr: Cr<S>, op: Operator<S>,
                                               rounds: seq<Round<S>>)
    requires parse("").None? && SafeTable(table) && parse(cr.operatorVersion).Some?
    requires IsRelease(parse, table, op) && AtMost(VersionOf(parse, cr.operatorVersion), VersionOf(parse, op.version))
    requires SameRelease(op, rounds)
    ensures var stored := AfterRounds(parse, cr, rounds);
            var direct := UpgradeSpec(parse, op, _ => false, cr);
            && direct.Ok?
            && stored.operatorVersion in {cr.operatorVersion, op.version}
            && stored.spec == if SpecStored(parse, cr, rounds) then direct.value.spec else cr.spec
  {
    var v, y := VersionOf(parse, cr.operatorVersion), VersionOf(parse, op.version);
    RunHasEffects(table, v, y, _ => false, cr.spec);
    if rounds != [] {
      var front, last := rounds[..|rounds| - 1], rounds[|rounds| - 1];
      assert SameRelease(op, front) by { assert forall i :: 0 <= i < |front| ==> front[i] == rounds[i]; }
      OneRelease(parse, table, cr, op, front);
      assert last.attempt.op == op;
      var before := AfterRounds(parse, cr, front);
      RunHasEffects(table, v, y, last.attempt.fails, before.spec);
      PrecedenceTotal(y, y);
      NoneSelected(table, y, y, _ => false, cr.spec);
      EffectsTwice(table, v, y, cr.spec);
      hide RunSteps, Effects, Conditions.ComponentsStatus, SafeTable, Releases;
    }
  }

  /** The recorded versions belong together: those of the release, or neither of them is. */
  predicate VersionsAgree<S>(cr: Cr<S>, version: string, tempoVersion: string) {
    (cr.operatorVersion == version ==> cr.tempoVersion == tempoVersion)
    && (cr.operatorVersion == "" ==> cr.tempoVersion == "")
  }

  lemma RoundKeepsVersions<S>(parse: Parser, cr: Cr<S>, r: Round<S>)
    requires var op := r.attempt.op; op.version != "" && VersionsAgree(cr, op.version, op.tempoVersion)
    ensures var op := r.attempt.op; VersionsAgree(AfterRound(parse, cr, r), op.version, op.tempoVersion)
  {
    hide RunSteps, Status.LookupFails;
  }

  /** While one release runs, and whatever fails and whatever status is written: once its version is recorded, so is the
      version of Tempo that it runs. */
  lemma {:induction false} VersionsMatch<S(!new)>(parse: Parser, cr: Cr<S>, op: Operator<S>, rounds: seq<Round<S>>)
    requires op.version != "" && SameRelease(op, rounds) && VersionsAgree(cr, op.version, op.tempoVersion)
    ensures VersionsAgree(AfterRounds(parse, cr, rounds), op.version, op.tempoVersion)
  {
    if rounds != [] {
      var front, last := rounds[..|rounds| - 1], rounds[|rounds| - 1];
      assert SameRelease(op, front) by { assert forall i :: 0 <= i < |front| ==> front[i] == rounds[i]; }
      VersionsMatch(parse, cr, op, front);
      assert last.attempt.op == op;
      RoundKeepsVersions(parse, AfterRounds(parse, cr, front), last);
      hide AfterRound;
    }
  }

  /** One round, while the version is the old one or that of the release. */
  lemma RecordingRound<S(!new)>(parse: Parser, old_: string, cr: Cr<S>, r: Round<S>)
    requires var version := r.attempt.op.version;
             old_ != "" && version != "" && old_ != version && cr.operatorVersion in {old_, version}
    ensures var version := r.attempt.op.version;
            var next := AfterRound(parse, cr, r).operatorVersion;
            && next in {old_, version}
            && (cr.operatorVersion == version ==> next == version && !Forgets(parse, cr, r))
            && (Forgets(parse, cr, r) ==> next == version)
            && (next == version && cr.operatorVersion != version ==>
                  Forgets(parse, cr, r)
                  || (r.attempt.specPatched && UpgradeSpec(parse, r.attempt.op, r.attempt.fails, cr).Ok?))
  {
    hide RunSteps, Status.LookupFails;
  }

  /** A version that was recorded without storing the spec was recorded by a round that forgot the old one. */
  lemma {:induction false} RecordedWithoutSpec<S(!new)>(parse: Parser, cr: Cr<S>, op: Operator<S>,
                                                        rounds: seq<Round<S>>)
    requires cr.operatorVersion != "" && op.version != "" && cr.operatorVersion != op.version && SameRelease(op, rounds)
    ensures var stored := AfterRounds(parse, cr, rounds);
            && stored.operatorVersion in {cr.operatorVersion, op.version}
            && (!NeverForgets(parse, cr, rounds) ==> stored.operatorVersion == op.version)
            && (stored.operatorVersion == op.version && !SpecStored(parse, cr, rounds) ==>
                !NeverForgets(parse, cr, rounds))
  {
    if rounds != [] {
      var front, last := rounds[..|rounds| - 1], rounds[|rounds| - 1];
      assert SameRelease(op, front) by { assert forall i :: 0 <= i < |front| ==> front[i] == rounds[i]; }
      RecordedWithoutSpec(parse, cr, op, front);
      assert last.attempt.op == op;
      RecordingRound(parse, cr.operatorVersion, AfterRounds(parse, cr, front), last);
      hide AfterRound, Forgets, UpgradeSpec;
    }
  }

  /** The steps are lost, in that the release takes the resource for up to date although its spec is not, exactly when a
      round forgot the old version before any round stored the spec, and there was something to change. */
  lemma StepsLost<S(!new)>(parse: Parser, table: seq<Step<S>>, cr: Cr<S>, op: Operator<S>, rounds: seq<Round<S>>)
    requires parse("").None? && SafeTable(table) && parse(cr.operatorVersion).Some?
    requires IsRelease(parse, table, op) && AtMost(VersionOf(parse, cr.operatorVersion), VersionOf(parse, op.version))
    requires SameRelease(op, rounds) && cr.operatorVersion != op.version
    ensures var stored, direct := AfterRounds(parse, cr, rounds), UpgradeSpec(parse, op, _ => false, cr);
            && direct.Ok?
            && (stored.operatorVersion == op.version && stored.spec != direct.value.spec <==>
                  !NeverForgets(parse, cr, rounds) && !SpecStored(parse, cr, rounds) && direct.value.spec != cr.spec)
  {
    OneRelease(parse, table, cr, op, rounds);
    RecordedWithoutSpec(parse, cr, op, rounds);
  }

  /** Lost steps do not come back while the release runs. */
  lemma {:induction false} LostForGood<S(!new)>(parse: Parser, cr: Cr<S>, op: Operator<S>, rounds: seq<Round<S>>)
    requires op.version != "" && cr.operatorVersion == op.version && SameRelease(op, rounds)
    ensures Alike(AfterRounds(parse, cr, rounds), cr)
  {
    if rounds != [] {
      var front, last := rounds[..|rounds| - 1], rounds[|rounds| - 1];
      assert SameRelease(op, front) by { assert forall i :: 0 <= i < |front| ==> front[i] == rounds[i]; }
      LostForGood(parse, cr, op, front);
      assert last.attempt.op == op;
      ForgettingMatters(parse, AfterRounds(parse, cr, front), last);
    }
  }

  // ---------- the table that is shipped ----------

  /** From 0.15.4 on, an operator ships every step of the table. */
  lemma ShippedTable(parse: Parser, upgrader: Upgrader)
    requires upgrader.parse == parse && parse(upgrader.operatorVersion).Some?
    requires AtMost(Release(0, 15, 4), VersionOf(parse, upgrader.operatorVersion))
    ensures IsRelease(parse, UpgradeTable(), upgrader.Release()) && SafeTable(UpgradeTable())
  {
    var t, y := UpgradeTable(), VersionOf(parse, upgrader.operatorVersion);
    TableIsSafe();
    PrecedenceTotal(Release(0, 15, 4), Release(0, 15, 4));
    assert t[|t| - 1].version == Release(0, 15, 4);
    assert AllAtMost(t, y) by {
      forall i | 0 <= i < |t| ensures AtMost(t[i].version, y) {
        if i < 6 { assert Precedes(t[i].version, t[6].version); }
        PrecedenceTotal(t[i].version, t[6].version);
        AtMostPrecedes(t[i].version, Release(0, 15, 4), y);
      }
    }
    AllShipped(t, y);
  }

  lemma {:induction false} AllShipped<S(!new)>(table: seq<Step<S>>, upTo: Version)
    requires AllAtMost(table, upTo)
    ensures Shipped(table, upTo) == table
  {
    if table != [] {
      var front := table[..|table| - 1];
      assert AllAtMost(front, upTo) by { assert forall i :: 0 <= i < |front| ==> front[i] == table[i]; }
      AllShipped(front, upTo);
      assert table == front + [table[|table| - 1]];
    }
  }

  /** Crash safety of the operator's own table, while the running operator is 0.15.4 or later. */
  lemma OperatorIsCrashSafe(parse: Parser, upgrader: Upgrader, cr: Cr<Spec>, rounds: seq<Round<Spec>>)
    requires parse("").None? && parse(cr.operatorVersion).Some? && parse(upgrader.operatorVersion).Some?
    requires upgrader.parse == parse && AtMost(Release(0, 15, 4), VersionOf(parse, upgrader.operatorVersion))
    requires AtMost(VersionOf(parse, cr.operatorVersion), VersionOf(parse, upgrader.operatorVersion))
    requires cr.operatorVersion != upgrader.operatorVersion && SameRelease(upgrader.Release(), rounds)
    ensures var stored := AfterRounds(parse, cr, rounds);
            var target := Effects(UpgradeTable(), VersionOf(parse, cr.operatorVersion),
                                  VersionOf(parse, upgrader.operatorVersion), cr.spec);
            && (SpecStored(parse, cr, rounds) ==> stored.spec == target)
            && (stored.operatorVersion == upgrader.operatorVersion && stored.spec != target <==>
                  !NeverForgets(parse, cr, rounds) && !SpecStored(parse, cr, rounds) && target != cr.spec)
  {
    var table, op := UpgradeTable(), upgrader.Release();
    ShippedTable(parse, upgrader);
    OneRelease(parse, table, cr, op, rounds);
    StepsLost(parse, table, cr, op, rounds);
    RunHasEffects(table, VersionOf(parse, cr.operatorVersion), VersionOf(parse, op.version), _ => false, cr.spec);
    assert cr.operatorVersion != op.version;
    hide Effects, RunSteps, AfterRounds, SpecStored, NeverForgets, SafeTable, Shipped;
  }

  const OLD_LIMIT := Limits(Some(1), "")
  const OLD_SPEC := Spec(OLD_LIMIT, map[], Images("", "", "", ""), false, "", "", "")
  const OLD_STACK := Cr(OLD_SPEC, "0.2.0", "")

  function TwoVersions(text: string): Option<Version> {
    if text == "0.2.0" then Some(Release(0, 2, 0)) else if text == "0.15.4" then Some(Release(0, 15, 4)) else None
  }

  /** An instance of 0.2.0 with a search limit, which 0.3.0 removes. The step of 0.5.0 fails once, and one pod list
      fails at the same time; the next round takes the instance for upgraded, with the limit still in its spec. */
  lemma LostLimit(conditions: seq<Status.Condition>, seen: Conditions.Observation)
    requires ListFails(seen)
    ensures var op := Operator("0.15.4", "2.8", UpgradeTable());
            var first := Round(Attempt(op, v => v == Release(0, 5, 0), true, true), conditions, seen, true);
            var second := Round(Attempt(op, _ => false, true, true), conditions, seen.(lists := map[]), true);
            var stored := AfterRounds(TwoVersions, OLD_STACK, [first, second]);
            && UpgradeSpec(TwoVersions, op, _ => false, OLD_STACK).Ok?
            && UpgradeSpec(TwoVersions, op, _ => false, OLD_STACK).value.spec.globalLimits.maxSearchBytesPerTrace
                == None
            && stored.operatorVersion == "0.15.4" && stored.spec.globalLimits.maxSearchBytesPerTrace == Some(1)
  {
    var op := Operator("0.15.4", "2.8", UpgradeTable());
    var fails: Failing := v => v == Release(0, 5, 0);
    var first := Round(Attempt(op, fails, true, true), conditions, seen, true);
    var second := Round(Attempt(op, _ => false, true, true), conditions, seen.(lists := map[]), true);
    LimitRemoved(7, _ => false);
    assert UpgradeTable()[..7] == UpgradeTable();
    FailsAtFive(fails);
    assert "0.2.0"[2] != "0.15.4"[2];
    hide RunSteps, UpgradeTable;
    var lost := OLD_STACK.(operatorVersion := "0.15.4", tempoVersion := "2.8");
    assert AfterRound(TwoVersions, OLD_STACK, first) == lost;
    assert [first, second][..1] == [first] && [first][..0] == [];
    assert AfterRounds(TwoVersions, OLD_STACK, []) == OLD_STACK;
    assert AfterRounds(TwoVersions, OLD_STACK, [first]) == lost;
    LostForGood(TwoVersions, lost, op, [second]);
    assert [second][..0] == [];
    assert AfterRounds(TwoVersions, lost, []) == lost;
    assert AfterRounds(TwoVersions, OLD_STACK, [first, second]) == AfterRound(TwoVersions, lost, second);
  }

  lemma OneMore(i: nat, fails: Failing)
    requires i < 7
    ensures var t, from := UpgradeTable(), Release(0, 2, 0);
            var before := RunSteps(t[..i], from, fails, OLD_SPEC);
            RunSteps(t[..i + 1], from, fails, OLD_SPEC) ==
              if before.None? || i == 0 then before
              else if fails(STEP_VERSIONS[i]) then None
              else Some(EffectOf(i, before.value))
  {
    assert UpgradeTable()[..i + 1][..i] == UpgradeTable()[..i];
  }

  /** From 0.3.0 on the limit is gone. */
  lemma {:induction false} LimitRemoved(i: nat, fails: Failing)
    requires 2 <= i <= 7 && forall v :: !fails(v)
    ensures var r := RunSteps(UpgradeTable()[..i], Release(0, 2, 0), fails, OLD_SPEC);
            r.Some? && r.value.globalLimits.maxSearchBytesPerTrace == None
  {
    if i == 2 {
      OneMore(0, fails);
      OneMore(1, fails);
      assert UpgradeTable()[..0] == [];
    } else {
      LimitRemoved(i - 1, fails);
      OneMore(i - 1, fails);
    }
  }

  lemma FailsAtFive(fails: Failing)
    requires forall v :: fails(v) <==> v == Release(0, 5, 0)
    ensures RunSteps(UpgradeTable(), Release(0, 2, 0), fails, OLD_SPEC).None?
  {
    OneMore(0, fails);
    OneMore(1, fails);
    OneMore(2, fails);
    assert UpgradeTable()[..0] == [];
    FailedPrefix(UpgradeTable(), 3, Release(0, 2, 0), fails, OLD_SPEC);
  }
}
