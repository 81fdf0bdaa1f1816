/** Every write of the retry gate and of a starting attempt obeys the rules and keeps the invariant. */
module GateRules {
  import opened Text
  import opened Conditions
  import opened Samples
  import opened Cluster
  import opened Passes
  import opened Runs
  import opened Invariant
  import opened Steps
  import opened Rules
  import opened PassRules
  import GateLog

  /** A retry may be due: no worker is recorded and only the retry path remains. */
  ghost predicate GateReady(w: World, m: Status) {
    && Inv(w) && Live(w) && Near(w.status, m) && m.attempts >= 1
    && RecordedWorker(w).None? && JobKey.Reown !in w.jobs && !CloneOnlyDone(w)
  }

  // ------------------------------------------------------------------ holds

  lemma AttemptPhaseRuns(m: Status)
    ensures AttemptPhase(m) != Phase.Suspended && AttemptPhase(m) != Phase.Failed
  {
  }

  lemma SetHoldShape(s: Spec, m: Status, r: Reason)
    requires !s.suspend
    ensures Neutral(m, SetHold(s, m, r)) && SetHold(s, m, r).phase != Phase.Suspended
  {
    var m1 := SetCond(m, RetryHeld, CondTrue, r);
    AttemptPhaseRuns(m1);
    assert Neutral(m, m1);
    assert m1.phase == m.phase;
  }

  lemma ProbingShape(s: Spec, m: Status)
    requires !s.suspend
    ensures Neutral(m, Probing(s, m)) && Probing(s, m).phase != Phase.Suspended
  {
    if RetryHeld in m.conds {
      SetHoldShape(s, m, m.conds[RetryHeld].reason);
    }
    SetHoldShape(s, m, GateProbing);
  }

  lemma HoldPatch(p: WriteRule, w: World, o: Obs, m: Status, n: Status, locked: bool)
    requires Covers(p, o) && GateReady(w, m) && Neutral(m, n) && n.phase != Phase.Suspended
    ensures Every(p, w, [Patch(n, locked)])
  {
    NeutralPatch(p, w, o, n, locked);
  }

  lemma ProbingPatch(p: WriteRule, w: World, o: Obs, m: Status)
    requires Covers(p, o) && GateReady(w, m)
    ensures Every(p, w, [Patch(Probing(w.spec, m), false)])
  {
    ProbingShape(w.spec, m);
    HoldPatch(p, w, o, m, Probing(w.spec, m), false);
  }

  lemma SetHoldPatch(p: WriteRule, w: World, o: Obs, m: Status, r: Reason)
    requires Covers(p, o) && GateReady(w, m)
    ensures Every(p, w, [Patch(SetHold(w.spec, m, r), false)])
  {
    SetHoldShape(w.spec, m, r);
    HoldPatch(p, w, o, m, SetHold(w.spec, m, r), false);
  }

  // ------------------------------------------------------------------ the probe

  lemma SameInputs(s: Spec, m: Status, n: Status)
    requires Near(m, n)
    ensures GateInputsFor(s, m) == GateInputsFor(s, n)
  {
  }

  lemma ProbeCreated(p: WriteRule, w: World, o: Obs, m: Status)
    requires Covers(p, o) && GateReady(w, m) && !HasPod(w, Worker(m.attempts)) && !RehearsalPod(w)
    ensures var x := CreateJob(JobKey.Gate(m.attempts + 1), NewJob(BuiltGate(GateInputsFor(w.spec, m))));
            Every(p, w, [x]) && GateReady(Apply(w, x), m)
  {
    SameInputs(w.spec, w.status, m);
    CreateSideJobKeeps(w, JobKey.Gate(m.attempts + 1), NewJob(BuiltGate(GateInputsFor(w.spec, m))));
    LawfulOne(p, w, o, CreateJob(JobKey.Gate(m.attempts + 1), NewJob(BuiltGate(GateInputsFor(w.spec, m)))));
  }

  lemma ProbeDeleted(p: WriteRule, w: World, o: Obs, m: Status, n: nat)
    requires Covers(p, o) && Inv(w)
    ensures Every(p, w, [DeleteJob(JobKey.Gate(n), Background)])
    ensures GateReady(w, m) ==> GateReady(Apply(w, DeleteJob(JobKey.Gate(n), Background)), m)
  {
    DeleteKeeps(w, JobKey.Gate(n), Background);
    LawfulOne(p, w, o, DeleteJob(JobKey.Gate(n), Background));
  }

  lemma DeleteAndProbe(p: WriteRule, w: World, o: Obs, m: Status, n: nat)
    requires Covers(p, o) && GateReady(w, m)
    ensures Every(p, w, [DeleteJob(JobKey.Gate(n), Background), Patch(Probing(w.spec, m), false)])
  {
    ProbeDeleted(p, w, o, m, n);
    ProbingPatch(p, Apply(w, DeleteJob(JobKey.Gate(n), Background)), o, m);
    EveryPair(p, w, DeleteJob(JobKey.Gate(n), Background), Patch(Probing(w.spec, m), false));
  }

  lemma HoldProbeRules(p: WriteRule, w: World, o: Obs, m: Status, n: nat, j: Job, current: bool, result: GateLog.Result)
    requires Covers(p, o) && GateReady(w, m)
    ensures Every(p, w, HoldProbe(w, m, o, JobKey.Gate(n), j, current, result))
  {
    var key := JobKey.Gate(n);
    if !current {
      DeleteAndProbe(p, w, o, m, n);
    } else {
      var found := GateLog.Hold(result, GateInputsFor(w.spec, m));
      var r := if !o.gateReadable || found.None? then ProbeFailed else found.value;
      if j.finishedAt + RETRY_GATE_INTERVAL > w.clock {
        SetHoldPatch(p, w, o, m, r);
        assert HoldProbe(w, m, o, key, j, current, result) == [Patch(SetHold(w.spec, m, r), false)];
      } else {
        ProbeDeleted(p, w, o, m, n);
        SetHoldPatch(p, Apply(w, DeleteJob(key, Background)), o, m, r);
        EveryPair(p, w, DeleteJob(key, Background), Patch(SetHold(w.spec, m, r), false));
        assert HoldProbe(w, m, o, key, j, current, result) == [DeleteJob(key, Background),
               Patch(SetHold(w.spec, m, r), false)];
      }
    }
  }

  // ------------------------------------------------------------------ verdict and budget

  /** Why a verdict may be given. */
  ghost predicate Justified(w: World, o: Obs, v: Verdict)
    requires w.status.gate.Some?
  {
    match v
    case Undecided => false
    case Exempt => Outlived(w, o)
    case Counted =>
      VerdictOverdue(w.status, w.clock) || (CensusRead(w, o).Some? && !Outlived(w, o)) ||
      GateCleared(w, o, w.status.attempts + 1)
  }

  lemma DecideRule(w: World, o: Obs, m: Status, v: Verdict)
    requires GateReady(w, m) && m.gate.Some? && m.gate.value.verdict.Undecided? && Justified(w, o, v)
    requires !DecideFails(w.spec, m, v)
    ensures PatchRule(w, o, Decide(w.spec, m, v), true)
  {
  }

  lemma DecideInv(w: World, m: Status, v: Verdict)
    requires GateReady(w, m) && m.gate.Some? && m.gate.value.verdict.Undecided? && !v.Undecided?
    requires !DecideFails(w.spec, m, v)
    ensures Inv(w.(status := Decide(w.spec, m, v)))
  {
    VerdictKeepsBook(w, Decide(w.spec, m, v), v);
  }

  /** A verdict that leaves the Migration alive. */
  lemma DecidePatch(p: WriteRule, w: World, o: Obs, m: Status, v: Verdict)
    requires Covers(p, o) && GateReady(w, m) && m.gate.Some? && m.gate.value.verdict.Undecided? && Justified(w, o, v)
    requires !DecideFails(w.spec, m, v)
    ensures var x := Patch(Decide(w.spec, m, v), true);
            Every(p, w, [x]) && GateReady(Apply(w, x), Decide(w.spec, m, v))
  {
    DecideRule(w, o, m, v);
    DecideInv(w, m, v);
    LawfulOne(p, w, o, Patch(Decide(w.spec, m, v), true));
  }

  /** A Counted verdict that spends the budget fails the Migration in the same patch. */
  lemma CountedSpentPatch(p: WriteRule, w: World, o: Obs, m: Status)
    requires Covers(p, o) && GateReady(w, m) && m.gate.Some? && m.gate.value.verdict.Undecided? &&
             Justified(w, o, Counted)
    requires BudgetSpent(w.spec, m)
    ensures Every(p, w, [Patch(Decide(w.spec, m, Counted), true)])
  {
    CountedSpentRule(w, o, m);
    CountedSpentInv(w, m);
    LawfulOne(p, w, o, Patch(Decide(w.spec, m, Counted), true));
  }

  /** What a spent budget leaves of the status. */
  predicate SpentShape(m: Status, n: Status) {
    && m.attempts == n.attempts && m.exempt == n.exempt && m.jobName == n.jobName && m.repl == n.repl
    && m.rehearsal == n.rehearsal
    && SameCond(m, n, CaughtUp) && SameCond(m, n, CommitsBlocked) && SameCond(m, n, Complete)
    && (m.gate.None? ==> SameCond(m, n, CloneCompleted))
    && (m.gate.Some? ==> Latched(n.conds, CloneCompleted, CloneFailed))
    && n.phase == Phase.Failed && !True(n, RetryHeld)
    && CondType.Failed in n.conds && n.conds[CondType.Failed] == Condition(CondTrue, BackoffLimitExceeded)
  }

  lemma FailBudgetShape(m: Status)
    ensures SpentShape(m, FailBudget(m)) && FailBudget(m).gate == m.gate
  {
  }

  lemma SpentConds(w: World, o: Obs, m: Status, n: Status)
    requires GateReady(w, m) && SpentShape(m, n) && BudgetSpent(w.spec, m)
    requires n.gate.Some? ==> !n.gate.value.verdict.Undecided?
    ensures EndposRule(w, o, n) && LatchRule(w, o, n) && OutcomeRule(w, o, n) && RunRule(w, n)
  {
  }

  lemma SpentCopy(w: World, o: Obs, m: Status, n: Status)
    requires GateReady(w, m) && SpentShape(m, n)
    ensures AttemptRule(w, n) && CopyRule(w, o, n) && StartOverRule(w, o, n) && BlockedRule(w, o, n)
  {
  }

  lemma CountedSpentRule(w: World, o: Obs, m: Status)
    requires GateReady(w, m) && m.gate.Some? && m.gate.value.verdict.Undecided? && Justified(w, o, Counted)
    requires BudgetSpent(w.spec, m)
    ensures PatchRule(w, o, Decide(w.spec, m, Counted), true)
  {
    var n := Decide(w.spec, m, Counted);
    FailBudgetShape(m);
    SpentConds(w, o, m, n);
    SpentCopy(w, o, m, n);
  }

  lemma SpentFlags(w: World, m: Status, n: Status)
    requires GateReady(w, m) && SpentShape(m, n) && Book(w.(status := n)) && (m.gate.Some? <==> n.gate.Some?)
    ensures Inv(w.(status := n))
  {
  }

  lemma CountedSpentInv(w: World, m: Status)
    requires GateReady(w, m) && m.gate.Some? && m.gate.value.verdict.Undecided? && BudgetSpent(w.spec, m)
    ensures Inv(w.(status := Decide(w.spec, m, Counted)))
  {
    var n := Decide(w.spec, m, Counted);
    FailBudgetShape(m);
    VerdictKeepsBook(w, n, Counted);
    SpentFlags(w, m, n);
  }

  /** A spent budget found with no verdict pending. */
  lemma SpentPatch(p: WriteRule, w: World, o: Obs, m: Status, locked: bool)
    requires Covers(p, o) && GateReady(w, m) && (m.gate.Some? ==> !m.gate.value.verdict.Undecided?)
    requires BudgetSpent(w.spec, m)
    ensures Every(p, w, [Patch(FailBudget(m), locked)])
  {
    SpentRule(w, o, m, locked);
    SpentInv(w, m);
    LawfulOne(p, w, o, Patch(FailBudget(m), locked));
  }

  lemma SpentRule(w: World, o: Obs, m: Status, locked: bool)
    requires GateReady(w, m) && (m.gate.Some? ==> !m.gate.value.verdict.Undecided?)
    requires BudgetSpent(w.spec, m)
    ensures PatchRule(w, o, FailBudget(m), locked)
  {
    FailBudgetShape(m);
    SpentConds(w, o, m, FailBudget(m));
    SpentCopy(w, o, m, FailBudget(m));
  }

  lemma SpentInv(w: World, m: Status)
    requires GateReady(w, m)
    ensures Inv(w.(status := FailBudget(m)))
  {
    FailBudgetShape(m);
    PatchKeepsBook(w, FailBudget(m));
    SpentFlags(w, m, FailBudget(m));
  }

  // ------------------------------------------------------------------ the gate's branches

  /** A gate step is lawful, and one that clears the worker leaves a world in which it may start. */
  ghost predicate GateStepRules(p: WriteRule, w: World, o: Obs, m: Status, g: GateStep) {
    match g
    case Held(ws) => Every(p, w, ws)
    case Cleared(n, ws) =>
      && Every(p, w, ws) && GateReady(ApplyAll(w, ws), n)
      && n.attempts == m.attempts && GateCleared(ApplyAll(w, ws), o, n.attempts + 1)
      && (n.gate.None? || !n.gate.value.verdict.Undecided? ==> n == m || !BudgetSpent(w.spec, n))
  }

  lemma PassedIsCleared(w: World, m: Status, o: Obs, j: Job)
    requires GateReady(w, m) && !HasPod(w, Worker(m.attempts)) && !RehearsalPod(w)
    requires JobAt(w, JobKey.Gate(m.attempts + 1)) == Some(j) && ProbePassed(w, m, o, j)
    requires InputsOf(j) == GateInputsFor(w.spec, m) && w.clock <= j.finishedAt + GATE_PASS_FRESHNESS
    ensures GateCleared(w, o, m.attempts + 1)
  {
    SameInputs(w.spec, w.status, m);
  }

  lemma CensusJustifies(w: World, m: Status, o: Obs, j: Job)
    requires GateReady(w, m) && JobAt(w, JobKey.Gate(m.attempts + 1)) == Some(j) && !j.state.Running?
    requires Judgeable(m, ProbeResult(o, j))
    ensures Justified(w, o, ExemptionVerdict(ProbeResult(o, j).census.value, m.gate.value.failedAt))
  {
    assert CensusRead(w, o) == ProbeResult(o, j).census;
  }

  lemma JudgeProbeRules(p: WriteRule, w: World, o: Obs, m: Status, j: Job)
    requires Covers(p, o) && GateReady(w, m) && !HasPod(w, Worker(m.attempts)) && !RehearsalPod(w)
    requires JobAt(w, JobKey.Gate(m.attempts + 1)) == Some(j) && !j.state.Running?
    ensures GateStepRules(p, w, o, m, JudgeProbe(w, m, o, JobKey.Gate(m.attempts + 1), j))
  {
    var key := JobKey.Gate(m.attempts + 1);
    var current := InputsOf(j) == GateInputsFor(w.spec, m);
    if j.state.Succeeded? && (!current || w.clock > j.finishedAt + GATE_PASS_FRESHNESS) {
      DeleteAndProbe(p, w, o, m, m.attempts + 1);
    } else if ProbePassed(w, m, o, j) {
      PassedIsCleared(w, m, o, j);
    } else {
      var result := ProbeResult(o, j);
      if Judgeable(m, result) {
        JudgedRules(p, w, o, m, j, current);
      } else {
        HoldProbeRules(p, w, o, m, m.attempts + 1, j, current, result);
      }
    }
  }

  /** HoldProbeRules, with the writes named. */
  lemma HoldWrites(p: WriteRule, w: World, o: Obs, m: Status, n: nat, j: Job, current: bool, result: GateLog.Result)
      returns (ws: seq<Write>)
    requires Covers(p, o) && GateReady(w, m)
    ensures ws == HoldProbe(w, m, o, JobKey.Gate(n), j, current, result) && Every(p, w, ws)
  {
    HoldProbeRules(p, w, o, m, n, j, current, result);
    ws := HoldProbe(w, m, o, JobKey.Gate(n), j, current, result);
  }

  lemma HoldReads(w: World, v: World, m: Status, o: Obs, n: nat, j: Job, current: bool, result: GateLog.Result)
    requires v.spec == w.spec && v.clock == w.clock
    ensures HoldProbe(w, m, o, JobKey.Gate(n), j, current, result) == HoldProbe(v, m, o, JobKey.Gate(n), j, current,
            result)
  {
  }

  /** The probe's hold behind a landed patch. */
  lemma HoldBehind(p: WriteRule, w: World, o: Obs, n: Status, k: nat, j: Job, current: bool, result: GateLog.Result)
    requires Covers(p, o) && Every(p, w, [Patch(n, true)]) && GateReady(Apply(w, Patch(n, true)), n)
    ensures Every(p, w, [Patch(n, true)] + HoldProbe(w, n, o, JobKey.Gate(k), j, current, result))
  {
    var w1 := Apply(w, Patch(n, true));
    var ws := HoldWrites(p, w1, o, n, k, j, current, result);
    HoldReads(w, w1, n, o, k, j, current, result);
    BehindPatch(p, w, n, true, ws);
  }

  /** A census verdict that leaves the Migration alive, and the hold behind it. */
  lemma JudgedAlive(p: WriteRule, w: World, o: Obs, m: Status, j: Job, current: bool, v: Verdict)
    requires Covers(p, o) && GateReady(w, m) && m.gate.Some? && m.gate.value.verdict.Undecided?
    requires Justified(w, o, v) && !DecideFails(w.spec, m, v)
    ensures var n := Decide(w.spec, m, v);
            var ws := HoldProbe(w, n, o, JobKey.Gate(m.attempts + 1), j, current, ProbeResult(o, j));
            Every(p, w, [Patch(n, true)] + ws)
  {
    DecidePatch(p, w, o, m, v);
    HoldBehind(p, w, o, Decide(w.spec, m, v), m.attempts + 1, j, current, ProbeResult(o, j));
  }

  /** The census verdict, and the hold behind it. */
  lemma JudgedRules(p: WriteRule, w: World, o: Obs, m: Status, j: Job, current: bool)
    requires Covers(p, o) && GateReady(w, m)
    requires JobAt(w, JobKey.Gate(m.attempts + 1)) == Some(j) && !j.state.Running?
    requires Judgeable(m, ProbeResult(o, j))
    ensures var v := ExemptionVerdict(ProbeResult(o, j).census.value, m.gate.value.failedAt);
            var n := Decide(w.spec, m, v);
            var ws := HoldProbe(w, n, o, JobKey.Gate(m.attempts + 1), j, current, ProbeResult(o, j));
            if DecideFails(w.spec, m, v) then Every(p, w, [Patch(n, true)]) else Every(p, w, [Patch(n, true)] + ws)
  {
    var v := ExemptionVerdict(ProbeResult(o, j).census.value, m.gate.value.failedAt);
    CensusJustifies(w, m, o, j);
    if DecideFails(w.spec, m, v) {
      CountedSpentPatch(p, w, o, m);
    } else {
      JudgedAlive(p, w, o, m, j, current, v);
    }
  }

  lemma BehindPatch(p: WriteRule, w: World, n: Status, locked: bool, ws: seq<Write>)
    requires Every(p, w, [Patch(n, locked)]) && Every(p, Apply(w, Patch(n, locked)), ws)
    ensures Every(p, w, [Patch(n, locked)] + ws)
    ensures ApplyAll(w, [Patch(n, locked)]) == Apply(w, Patch(n, locked))
    ensures ApplyAll(w, [Patch(n, locked)] + ws) == ApplyAll(Apply(w, Patch(n, locked)), ws)
  {
    var x := Patch(n, locked);
    assert ApplyAll(w, [x]) == Apply(w, x) by { assert [x][1..] == []; }
    ApplyAllConcat(w, [x], ws);
    EveryConcat(p, w, [x], ws);
  }

  lemma ProbeGateRules(p: WriteRule, w: World, o: Obs, m: Status)
    requires Covers(p, o) && GateReady(w, m)
    ensures GateStepRules(p, w, o, m, ProbeGate(w, m, o, m.attempts + 1))
  {
    var key := JobKey.Gate(m.attempts + 1);
    if HasPod(w, Worker(m.attempts)) || RehearsalPod(w) {
      SetHoldPatch(p, w, o, m, WorkerPodRemains);
    } else {
      match JobAt(w, key)
      case None =>
        var x := CreateJob(key, NewJob(BuiltGate(GateInputsFor(w.spec, m))));
        ProbeCreated(p, w, o, m);
        ProbingPatch(p, Apply(w, x), o, m);
        EveryPair(p, w, x, Patch(Probing(w.spec, m), false));
      case Some(j) =>
        if j.deleting {
          ProbingPatch(p, w, o, m);
        } else if j.state.Running? {
          SetHoldPatch(p, w, o, m, ProbeFailed);
          ProbingPatch(p, w, o, m);
        } else {
          JudgeProbeRules(p, w, o, m, j);
        }
    }
  }

  lemma RetryGateRules(p: WriteRule, w: World, o: Obs, m: Status)
    requires Covers(p, o) && GateReady(w, m)
    ensures GateStepRules(p, w, o, m, RetryGatePass(w, m, o, m.attempts + 1))
  {
    if OnFailurePath(m) && VerdictOverdue(m, w.clock) {
      var n := Decide(w.spec, m, Counted);
      if DecideFails(w.spec, m, Counted) {
        CountedSpentPatch(p, w, o, m);
      } else {
        OverdueRules(p, w, o, m);
      }
    } else {
      ProbeGateRules(p, w, o, m);
    }
  }

  /** ProbeGateRules, with the step named. */
  lemma ProbeStep(p: WriteRule, w: World, o: Obs, m: Status) returns (g: GateStep)
    requires Covers(p, o) && GateReady(w, m)
    ensures g == ProbeGate(w, m, o, m.attempts + 1) && GateStepRules(p, w, o, m, g)
  {
    ProbeGateRules(p, w, o, m);
    g := ProbeGate(w, m, o, m.attempts + 1);
  }

  lemma BehindRules(p: WriteRule, w: World, o: Obs, m: Status, n: Status, g: GateStep)
    requires Every(p, w, [Patch(n, true)]) && GateStepRules(p, Apply(w, Patch(n, true)), o, n, g)
    requires n.attempts == m.attempts && !BudgetSpent(w.spec, n) && (g.Cleared? ==> g.m == n)
    ensures GateStepRules(p, w, o, m, Behind([Patch(n, true)], g))
  {
    BehindPatch(p, w, n, true, g.ws);
  }

  lemma OverdueRules(p: WriteRule, w: World, o: Obs, m: Status)
    requires Covers(p, o) && GateReady(w, m) && OnFailurePath(m) && VerdictOverdue(m, w.clock)
    requires !DecideFails(w.spec, m, Counted)
    ensures var n := Decide(w.spec, m, Counted);
            GateStepRules(p, w, o, m, Behind([Patch(n, true)],
            ProbeGate(Apply(w, Patch(n, true)), n, o, m.attempts + 1)))
  {
    var n := Decide(w.spec, m, Counted);
    DecidePatch(p, w, o, m, Counted);
    var g := ProbeStep(p, Apply(w, Patch(n, true)), o, n);
    ProbeGateClears(Apply(w, Patch(n, true)), n, o, n.attempts + 1);
    BehindRules(p, w, o, m, n, g);
  }

  lemma ProbeGateClears(w: World, m: Status, o: Obs, attempt: nat)
    requires attempt >= 1
    ensures var g := ProbeGate(w, m, o, attempt); g.Cleared? ==> g.m == m && g.ws == []
  {
  }
}
