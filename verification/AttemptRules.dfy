/** Every write by which an attempt starts obeys the rules and keeps the invariant. */
module AttemptRules {
  import opened Text
  import opened Conditions
  import opened Samples
  import opened Cluster
  import opened Passes
  import opened Runs
  import opened Invariant
  import opened Steps
  import opened Rules
  import opened PassRules
  import opened GateRules

  /** No worker is recorded and the next attempt is due. */
  ghost predicate StartReady(w: World, m: Status) {
    && Inv(w) && Live(w) && Near(w.status, m) && !w.spec.dryRun
    && RecordedWorker(w).None? && JobKey.Reown !in w.jobs && !CloneOnlyDone(w)
    && (m.attempts == 0 ==> JobIs(w, JobKey.Preflight, Succeeded))
  }

  // ------------------------------------------------------------------ recording the worker

  /** What a record changes, as the rules see it. */
  predicate RecordShape(m: Status, n: Status) {
    && n.attempts == m.attempts + 1 && n.exempt == m.exempt && n.jobName == Some(n.attempts) && n.repl == m.repl
    && n.rehearsal == m.rehearsal && (n.gate.None? || n.gate == m.gate) && (m.attempts >= 1 ==> n.gate.None?)
    && SameCond(m, n, CaughtUp) && SameCond(m, n, CommitsBlocked) && SameCond(m, n, Complete)
    && SameCond(m, n, CondType.Failed)
    && (if True(m, CloneCompleted) then SameCond(m, n, CloneCompleted)
       else Latched(n.conds, CloneCompleted, CloneRunning))
    && (m.attempts >= 1 ==> !True(n, RetryHeld)) && (m.attempts == 0 ==> SameCond(m, n, RetryHeld))
    && n.phase != Phase.Suspended
  }

  lemma RecordedShape(m: Status)
    ensures RecordShape(m, RecordedStatus(m))
  {
    AttemptPhaseRuns(m);
    var n := m.attempts + 1;
    var m1 := m.(started := true, attempts := n, jobName := Some(n), phase := AttemptPhase(m));
    var m2 := if True(m1, CloneCompleted) then m1 else SetCond(m1, CloneCompleted, CondFalse, CloneRunning);
    assert m2.phase == m1.phase && forall t :: t != CloneCompleted ==> SameCond(m1, m2, t);
    assert m.conds == m1.conds;
  }

  lemma RecordRule(w: World, o: Obs, m: Status, n: Status)
    requires StartReady(w, m) && RecordShape(m, n) && Worker(m.attempts + 1) in w.jobs
    ensures PatchRule(w, o, n, false)
  {
    assert m.attempts == 0 ==> m.gate.None?;
    assert Records(w, n);
  }

  lemma RecordInv(w: World, m: Status, n: Status)
    requires StartReady(w, m) && RecordShape(m, n) && Worker(m.attempts + 1) in w.jobs
    ensures Inv(w.(status := n))
  {
    assert m.attempts == 0 ==> m.gate.None?;
    RecordKeepsBook(w, n);
  }

  lemma RecordRules(p: WriteRule, w: World, o: Obs, m: Status)
    requires Covers(p, o) && StartReady(w, m) && Worker(m.attempts + 1) in w.jobs
    ensures Every(p, w, RecordAttempt(m))
  {
    var n := RecordedPatch(p, w, o, m);
    if m.attempts >= 1 {
      var x := DeleteJob(JobKey.Gate(m.attempts + 1), Background);
      ProbeDeleted(p, Apply(w, Patch(n, false)), o, m, m.attempts + 1);
      BehindPatch(p, w, n, false, [x]);
      RecordWrites(m, n, x);
    }
  }

  lemma RecordWrites(m: Status, n: Status, x: Write)
    requires n == RecordedStatus(m) && x == DeleteJob(JobKey.Gate(m.attempts + 1), Background) && m.attempts >= 1
    ensures RecordAttempt(m) == [Patch(n, false)] + [x]
  {
  }

  lemma RecordedPatch(p: WriteRule, w: World, o: Obs, m: Status) returns (n: Status)
    requires Covers(p, o) && StartReady(w, m) && Worker(m.attempts + 1) in w.jobs
    ensures n == RecordedStatus(m) && Every(p, w, [Patch(n, false)]) && Inv(Apply(w, Patch(n, false)))
  {
    n := RecordedStatus(m);
    RecordedShape(m);
    RecordRule(w, o, m, n);
    RecordInv(w, m, n);
    LawfulOne(p, w, o, Patch(n, false));
  }

  // ------------------------------------------------------------------ creating the worker

  lemma AttemptIsQuiet(w: World, m: Status)
    requires StartReady(w, m)
    ensures m.attempts >= 1 && !HasPod(w, Worker(m.attempts)) ==> Quiet(w, w.status.attempts)
    ensures m.attempts == 0 ==> Quiet(w, w.status.attempts)
  {
  }

  lemma WorkerCreated(p: WriteRule, w: World, o: Obs, m: Status)
    requires Covers(p, o) && StartReady(w, m) && !BudgetSpent(w.spec, m)
    requires m.attempts >= 1 ==>
               GateCleared(w, o, m.attempts + 1) && (m.gate.Some? ==> !m.gate.value.verdict.Undecided?)
    ensures var x := CreateJob(Worker(m.attempts + 1), BuildWorker(w.spec, m, m.attempts + 1));
            Every(p, w, [x]) && StartReady(Apply(w, x), m) && Worker(m.attempts + 1) in Apply(w, x).jobs
  {
    var x := CreateJob(Worker(m.attempts + 1), BuildWorker(w.spec, m, m.attempts + 1));
    CreatedReady(w, m);
    MayCreate(w, o, m);
    LawfulOne(p, w, o, x);
  }

  lemma CreatedReady(w: World, m: Status)
    requires StartReady(w, m) && !BudgetSpent(w.spec, m) && (m.attempts >= 1 ==> !HasPod(w, Worker(m.attempts)))
    ensures var v := Apply(w, CreateJob(Worker(m.attempts + 1), BuildWorker(w.spec, m, m.attempts + 1)));
            StartReady(v, m) && Worker(m.attempts + 1) in v.jobs
  {
    var v := CreatedWorld(w, m);
    StartReadyOn(w, v, m);
  }

  lemma CreatedWorld(w: World, m: Status) returns (v: World)
    requires StartReady(w, m) && !BudgetSpent(w.spec, m) && (m.attempts >= 1 ==> !HasPod(w, Worker(m.attempts)))
    ensures v == Apply(w, CreateJob(Worker(m.attempts + 1), BuildWorker(w.spec, m, m.attempts + 1)))
    ensures Inv(v) && v == w.(jobs := v.jobs) && Worker(m.attempts + 1) in v.jobs
    ensures forall k: JobKey :: k != Worker(m.attempts + 1) ==> JobAt(v, k) == JobAt(w, k)
  {
    var b := BuildWorker(w.spec, m, m.attempts + 1).built;
    WorkerMayCome(w, m);
    CreateWorkerKeeps(w, b);
    v := Apply(w, CreateJob(Worker(w.status.attempts + 1), NewJob(b)));
    OthersStay(w, Worker(m.attempts + 1), NewJob(b));
  }

  lemma WorkerMayCome(w: World, m: Status)
    requires StartReady(w, m) && !BudgetSpent(w.spec, m) && (m.attempts >= 1 ==> !HasPod(w, Worker(m.attempts)))
    ensures Quiet(w, w.status.attempts) && w.status.attempts == m.attempts
    ensures w.status.jobName.Some? ==> Worker(w.status.attempts) !in w.jobs
    ensures w.status.attempts - w.status.exempt < w.spec.backoffLimit + 1
  {
    AttemptIsQuiet(w, m);
  }

  lemma OthersStay(w: World, key: JobKey, j: Job)
    ensures var v := Apply(w, CreateJob(key, j));
            v == w.(jobs := v.jobs) && key in v.jobs && forall k: JobKey :: k != key ==> JobAt(v, k) == JobAt(w, k)
  {
  }

  lemma StartReadyOn(w: World, v: World, m: Status)
    requires StartReady(w, m) && Inv(v) && v == w.(jobs := v.jobs)
    requires forall k: JobKey :: k != Worker(m.attempts + 1) ==> JobAt(v, k) == JobAt(w, k)
    ensures StartReady(v, m)
  {
    assert JobAt(v, JobKey.Reown) == JobAt(w, JobKey.Reown) && JobAt(v, JobKey.Preflight) == JobAt(w, JobKey.Preflight);
    if m.jobName.Some? {
      assert JobAt(v, Worker(m.jobName.value)) == JobAt(w, Worker(m.jobName.value));
    }
  }

  lemma MayCreate(w: World, o: Obs, m: Status)
    requires StartReady(w, m) && !BudgetSpent(w.spec, m)
    requires m.attempts >= 1 ==>
               GateCleared(w, o, m.attempts + 1) && (m.gate.Some? ==> !m.gate.value.verdict.Undecided?)
    ensures WorkerRule(w, o, m.attempts + 1, BuildWorker(w.spec, m, m.attempts + 1))
  {
  }

  lemma CreateAndRecordRules(p: WriteRule, w: World, o: Obs, m: Status)
    requires Covers(p, o) && StartReady(w, m) && !BudgetSpent(w.spec, m)
    requires m.attempts >= 1 ==>
               GateCleared(w, o, m.attempts + 1) && (m.gate.Some? ==> !m.gate.value.verdict.Undecided?)
    ensures Every(p, w, CreateAndRecord(w, m))
  {
    var x := CreateJob(Worker(m.attempts + 1), BuildWorker(w.spec, m, m.attempts + 1));
    WorkerCreated(p, w, o, m);
    RecordRules(p, Apply(w, x), o, m);
    BehindCreate(p, w, x, RecordAttempt(m));
    CreateAndRecordIs(w, m);
  }

  lemma CreateAndRecordIs(w: World, m: Status)
    ensures CreateAndRecord(w, m) ==
              [CreateJob(Worker(m.attempts + 1), BuildWorker(w.spec, m, m.attempts + 1))] + RecordAttempt(m)
  {
  }

  lemma BehindCreate(p: WriteRule, w: World, x: Write, ws: seq<Write>)
    requires Every(p, w, [x]) && Every(p, Apply(w, x), ws)
    ensures Every(p, w, [x] + ws)
  {
    assert ApplyAll(w, [x]) == Apply(w, x) by { assert [x][1..] == []; }
    EveryConcat(p, w, [x], ws);
  }

  // ------------------------------------------------------------------ settling the budget

  lemma SettledIsDecided(s: Spec, m: Status)
    requires OnFailurePath(m) && m.gate.value.verdict.Undecided?
    ensures SettleBudget(s, m) == Decide(s, m, Counted)
  {
  }

  /** A patch that repeats the status, landed only for its lock. */
  lemma SamePatch(p: WriteRule, w: World, o: Obs, m: Status)
    requires Covers(p, o) && GateReady(w, m)
    ensures Every(p, w, [Patch(m, true)]) && GateReady(Apply(w, Patch(m, true)), m)
  {
    NeutralPatch(p, w, o, m, true);
    NeutralInv(w, m);
  }

  lemma SettlePatch(p: WriteRule, w: World, o: Obs, m: Status)
    requires Covers(p, o) && GateReady(w, m) && GateCleared(w, o, m.attempts + 1)
    ensures var n := SettleBudget(w.spec, m);
            Every(p, w, [Patch(n, true)]) &&
            (!BudgetSpent(w.spec, m) ==>
              GateReady(Apply(w, Patch(n, true)), n) && n.attempts == m.attempts && n.exempt == m.exempt &&
              GateInputsFor(w.spec, n) == GateInputsFor(w.spec, m) &&
              (n.gate.Some? ==> !n.gate.value.verdict.Undecided?))
  {
    if OnFailurePath(m) && m.gate.value.verdict.Undecided? {
      SettledIsDecided(w.spec, m);
      SettleCounted(p, w, o, m);
    } else {
      assert m.gate.Some? ==> OnFailurePath(m);
      if BudgetSpent(w.spec, m) {
        SpentPatch(p, w, o, m, true);
      } else {
        SamePatch(p, w, o, m);
      }
    }
  }

  /** A pending verdict settles as Counted. */
  lemma SettleCounted(p: WriteRule, w: World, o: Obs, m: Status)
    requires Covers(p, o) && GateReady(w, m) && GateCleared(w, o, m.attempts + 1)
    requires m.gate.Some? && m.gate.value.verdict.Undecided?
    ensures var n := Decide(w.spec, m, Counted);
            Every(p, w, [Patch(n, true)]) &&
            (!BudgetSpent(w.spec, m) ==>
              GateReady(Apply(w, Patch(n, true)), n) && n.attempts == m.attempts && n.exempt == m.exempt &&
              GateInputsFor(w.spec, n) == GateInputsFor(w.spec, m) &&
              (n.gate.Some? ==> !n.gate.value.verdict.Undecided?))
  {
    if BudgetSpent(w.spec, m) {
      CountedSpentPatch(p, w, o, m);
    } else {
      DecidePatch(p, w, o, m, Counted);
    }
  }

  lemma SettleRules(p: WriteRule, w: World, o: Obs, m: Status)
    requires Covers(p, o) && GateReady(w, m) && !w.spec.dryRun && GateCleared(w, o, m.attempts + 1)
    ensures Every(p, w, Settle(w, m))
  {
    var n := SettleBudget(w.spec, m);
    SettlePatch(p, w, o, m);
    if BudgetSpent(w.spec, m) {
      assert Settle(w, m) == [Patch(n, true)];
    } else {
      var w1 := Apply(w, Patch(n, true));
      SameInputs(w.spec, w.status, m);
      assert GateCleared(w1, o, n.attempts + 1);
      CreateAndRecordRules(p, w1, o, n);
      BehindPatch(p, w, n, true, CreateAndRecord(w, n));
    }
  }

  // ------------------------------------------------------------------ starting an attempt

  lemma AfterClearedIs(w: World, m: Status, ws: seq<Write>, v: World)
    requires v.spec == w.spec
    ensures AfterGate(w, Cleared(m, ws)) == ws + Settle(v, m)
  {
  }

  /** SettleRules, with the writes named. */
  lemma SettleWrites(p: WriteRule, w: World, o: Obs, m: Status) returns (ws: seq<Write>)
    requires Covers(p, o) && GateReady(w, m) && !w.spec.dryRun && GateCleared(w, o, m.attempts + 1)
    ensures ws == Settle(w, m) && Every(p, w, ws)
  {
    SettleRules(p, w, o, m);
    ws := Settle(w, m);
  }

  lemma ClearedRules(p: WriteRule, w: World, o: Obs, v: World, n: Status, xs: seq<Write>)
    requires Covers(p, o) && Every(p, w, xs) && v == ApplyAll(w, xs) && v.spec == w.spec && !w.spec.dryRun
    requires GateReady(v, n) && GateCleared(v, o, n.attempts + 1)
    ensures Every(p, w, AfterGate(w, Cleared(n, xs)))
  {
    var ws := SettleWrites(p, v, o, n);
    EveryConcat(p, w, xs, ws);
    AfterClearedIs(w, n, xs, v);
  }

  lemma AfterGateRules(p: WriteRule, w: World, o: Obs, m: Status, g: GateStep)
    requires Covers(p, o) && GateStepRules(p, w, o, m, g) && !w.spec.dryRun
    requires g.Cleared? ==> ApplyAll(w, g.ws) == w.(status := ApplyAll(w, g.ws).status)
    ensures Every(p, w, AfterGate(w, g))
  {
    if g.Cleared? {
      ClearedRules(p, w, o, ApplyAll(w, g.ws), g.m, g.ws);
    }
  }

  lemma GatedStart(p: WriteRule, w: World, o: Obs, m: Status)
    requires Covers(p, o) && StartReady(w, m) && m.attempts >= 1
    ensures Every(p, w, AfterGate(w, RetryGatePass(w, m, o, m.attempts + 1)))
  {
    RetryGateRules(p, w, o, m);
    GateKeepsSpec(w, m, o);
    AfterGateRules(p, w, o, m, RetryGatePass(w, m, o, m.attempts + 1));
  }

  /** Clearing a worker changes the status at most. */
  lemma GateKeepsSpec(w: World, m: Status, o: Obs)
    requires m.attempts >= 1
    ensures var g := RetryGatePass(w, m, o, m.attempts + 1);
            g.Cleared? ==> ApplyAll(w, g.ws) == w.(status := ApplyAll(w, g.ws).status)
  {
    if OnFailurePath(m) && VerdictOverdue(m, w.clock) && !DecideFails(w.spec, m, Counted) {
      var n := Decide(w.spec, m, Counted);
      var x := Patch(n, true);
      ProbeGateClears(Apply(w, x), n, o, m.attempts + 1);
      assert [x] + [] == [x] && [x][1..] == [];
      assert ApplyAll(w, [x]) == ApplyAll(Apply(w, x), []);
    } else {
      ProbeGateClears(w, m, o, m.attempts + 1);
    }
  }

  lemma StartAttemptRules(p: WriteRule, w: World, o: Obs, m: Status)
    requires Covers(p, o) && StartReady(w, m)
    ensures Every(p, w, StartAttempt(w, m, o))
  {
    var n := m.attempts + 1;
    if n > 1 && Worker(n) in w.jobs {
      RecordRules(p, w, o, m);
    } else if (!OnFailurePath(m) || !m.gate.value.verdict.Undecided?) && BudgetSpent(w.spec, m) {
      SpentPatch(p, w, o, m, false);
    } else if n == 1 {
      CreateAndRecordRules(p, w, o, m);
    } else {
      GatedStart(p, w, o, m);
    }
  }
}
