/** Every write of every pass obeys the rules and keeps the invariant. */
module ReconcileRules {
  import opened Text
  import opened Conditions
  import opened Samples
  import opened Cluster
  import opened Passes
  import opened Runs
  import opened Invariant
  import opened Steps
  import opened Rules
  import opened PassRules
  import opened GateRules
  import opened AttemptRules
  import opened ObserveRules
  import opened WorkerRules
  import opened FinishRules

  /** An active pass and its working copy. */
  ghost predicate ActiveReady(w: World, m: Status) {
    Inv(w) && Live(w) && Near(w.status, m) && m.rehearsal == w.status.rehearsal
  }

  // ------------------------------------------------------------------ with no worker to observe

  /** No worker Job stands beside the working copy. */
  ghost predicate Jobless(w: World, m: Status) {
    && Inv(w) && Live(w) && Near(w.status, m) && RecordedWorker(w).None? && !w.spec.dryRun
    && (m.attempts == 0 ==> JobIs(w, JobKey.Preflight, Succeeded))
  }

  lemma ResumeReady(w: World, m: Status)
    requires Jobless(w, m) && (JobKey.Reown in w.jobs || CloneOnlyDone(w))
    ensures FinishReady(w, m)
  {
  }

  lemma ResumeOrStartRules(p: WriteRule, w: World, o: Obs, m: Status)
    requires Covers(p, o) && Jobless(w, m)
    ensures Every(p, w, ResumeOrStart(w, m, o))
  {
    var handover := w.spec.reown && JobKey.Reown in w.jobs;
    if !w.spec.follow && (handover || True(m, CloneCompleted)) {
      ResumeReady(w, m);
      FinishCloneRules(p, w, o, m);
    } else if handover {
      ResumeReady(w, m);
      FinishFollowRules(p, w, o, m);
    } else {
      StartAttemptRules(p, w, o, m);
    }
  }

  lemma JoblessAfterCancel(w: World, v: World, m: Status, n: Status)
    requires Jobless(w, m) && Winding(w, v) && Inv(v) && OnlyOutcome(m, n)
    ensures Jobless(v, n)
  {
  }

  lemma NextAttemptRules(p: WriteRule, w: World, o: Obs, m: Status)
    requires Covers(p, o) && Jobless(w, m)
    ensures Every(p, w, NextAttempt(w, m, o))
  {
    var c := CancelRehearsal(w, m, o, NoFault);
    var v := ApplyAll(w, c.ws);
    CancelShape(w, m, o, NoFault);
    DeletesLawful(p, w, o, c.ws);
    JoblessAfterCancel(w, v, m, c.m);
    ResumeOrStartRules(p, v, o, c.m);
    EveryConcat(p, w, c.ws, ResumeOrStart(v, c.m, o));
  }

  // ------------------------------------------------------------------ a validated Migration

  lemma SucceededReady(w: World, m: Status)
    requires WorkerReady(w, m, Succeeded)
    ensures FinishReady(w, ClearBlocked(m))
    ensures SameCond(w.status, ClearBlocked(m), CutoverCompleted) && SameCond(w.status, ClearBlocked(m), CloneCompleted)
  {
    RecordedFacts(w, m, Succeeded);
    ClearedReady(w, m, ClearBlocked(m));
  }

  lemma ClearedReady(w: World, m: Status, n: Status)
    requires WorkerReady(w, m, Succeeded) && n == m.(conds := n.conds) && !True(n, CommitsBlocked)
    requires SameCond(m, n, CloneCompleted) && SameCond(m, n, CaughtUp) && SameCond(m, n, Complete)
    requires SameCond(m, n, CondType.Failed) && SameCond(m, n, RetryHeld)
    ensures FinishReady(w, n)
  {
    RecordedFacts(w, m, Succeeded);
  }

  lemma WorkerPassRules(p: WriteRule, w: World, o: Obs, m: Status)
    requires Covers(p, o) && ActiveReady(w, m) && ValidObs(w, o) && !w.spec.dryRun
    requires m.attempts == 0 ==> JobIs(w, JobKey.Preflight, Succeeded)
    ensures Every(p, w, WorkerPass(w, m, o))
  {
    if RecordedWorker(w).None? {
      NextAttemptRules(p, w, o, m);
    } else {
      match RecordedWorker(w).value.state
      case Running => ObserveRunningRules(p, w, o, m);
      case Failed => HandleFailedRules(p, w, o, m);
      case Succeeded =>
        SucceededReady(w, m);
        if w.spec.follow {
          FinishFollowRules(p, w, o, ClearBlocked(m));
        } else {
          FinishCloneRules(p, w, o, ClearBlocked(m));
        }
    }
  }

  lemma DryRunPatch(p: WriteRule, w: World, o: Obs, m: Status)
    requires Covers(p, o) && ActiveReady(w, m) && w.spec.dryRun && JobIs(w, JobKey.Preflight, Succeeded)
    ensures Every(p, w, [Patch(CompletedStatus(m, DryRunSucceeded), false)])
  {
    var n := CompletedStatus(m, DryRunSucceeded);
    assert forall t :: t != Complete ==> SameCond(m, n, t);
    DryRunRule(w, o, m, n);
    PatchKeepsBook(w, n);
    LawfulOne(p, w, o, Patch(n, false));
  }

  lemma DryRunRule(w: World, o: Obs, m: Status, n: Status)
    requires ActiveReady(w, m) && w.spec.dryRun && JobIs(w, JobKey.Preflight, Succeeded)
    requires n == CompletedStatus(m, DryRunSucceeded) && forall t :: t != Complete ==> SameCond(m, n, t)
    ensures PatchRule(w, o, n, false)
  {
  }

  // ------------------------------------------------------------------ the preflight

  function Checking(m: Status): Status {
    SetCond(m, Validated, CondUnknown, PreflightRunning).(phase := Phase.Validating)
  }

  lemma PreflightWaits(p: WriteRule, w: World, o: Obs, m: Status)
    requires Covers(p, o) && ActiveReady(w, m) && m.attempts == 0
    ensures Every(p, w, [Patch(Checking(m), false)])
  {
    var n := Checking(m);
    assert forall t :: t != Validated ==> SameCond(m, n, t);
    NeutralPatch(p, w, o, n, false);
  }

  lemma PreflightCreated(p: WriteRule, w: World, o: Obs, m: Status)
    requires Covers(p, o) && ActiveReady(w, m) && m.attempts == 0
    ensures Every(p, w, [CreateJob(JobKey.Preflight, NewJob(BuiltOther)), Patch(Checking(m), false)])
  {
    var x := CreateJob(JobKey.Preflight, NewJob(BuiltOther));
    CreateSideJobKeeps(w, JobKey.Preflight, NewJob(BuiltOther));
    LawfulOne(p, w, o, x);
    PreflightWaits(p, Apply(w, x), o, m);
    EveryPair(p, w, x, Patch(Checking(m), false));
  }

  lemma PreflightFails(p: WriteRule, w: World, o: Obs, m: Status)
    requires Covers(p, o) && ActiveReady(w, m) && m.attempts == 0 && JobIs(w, JobKey.Preflight, JobState.Failed)
    ensures Every(p, w, [Patch(Fail(SetCond(m, Validated, CondFalse, Reason.PreflightFailed),
            Reason.PreflightFailed), false)])
  {
    EarlyFail(p, w, o, m, Reason.PreflightFailed);
  }

  /** A failure found before any worker: nothing but the verdict changes. */
  lemma EarlyFail(p: WriteRule, w: World, o: Obs, m: Status, r: Reason)
    requires Covers(p, o) && Inv(w) && Near(w.status, m) && !Acting(w, o)
    requires !w.deleting && !w.gone && !w.spec.suspend && !Terminal(w.status)
    requires (r == Reason.PreflightFailed && JobIs(w, JobKey.Preflight, JobState.Failed)) ||
             (r == Reason.InvalidSpec && !ValidSpec(w.spec))
    ensures Every(p, w, [Patch(Fail(SetCond(m, Validated, CondFalse, r), r), false)])
  {
    var n := EarlyStatus(m, r);
    FailPatch(p, w, o, n);
  }

  lemma EarlyStatus(m: Status, r: Reason) returns (n: Status)
    ensures n == Fail(SetCond(m, Validated, CondFalse, r), r) && FailShape(m, n)
    ensures n.conds[CondType.Failed].reason == r && SameCond(m, n, CloneCompleted) && SameCond(m, n, CommitsBlocked)
  {
    var m1 := SetCond(m, Validated, CondFalse, r);
    n := Fail(m1, r);
    assert SameCond(m, m1, CloneCompleted) && SameCond(m, m1, CommitsBlocked) && SameCond(m, m1, CaughtUp) &&
           SameCond(m, m1, Complete);
    FailLeaves(m1, r);
  }

  lemma ValidatedReady(w: World) returns (m: Status)
    requires Inv(w) && Live(w)
    ensures m == SetCond(w.status, Validated, CondTrue, SpecValid) && ActiveReady(w, m)
  {
    m := SetCond(w.status, Validated, CondTrue, SpecValid);
    assert forall t :: t != Validated ==> SameCond(w.status, m, t);
  }

  lemma ActivePassRules(p: WriteRule, w: World, o: Obs)
    requires Covers(p, o) && Inv(w) && Live(w) && ValidObs(w, o)
    ensures Every(p, w, ActivePass(w, o))
  {
    var m := w.status;
    match PreflightGate(w, m, o)
    case Stop(_) =>
      if JobKey.Preflight in w.jobs && w.jobs[JobKey.Preflight].state.Failed? {
        PreflightFails(p, w, o, m);
      } else {
        PreflightWaits(p, w, o, m);
        PreflightCreated(p, w, o, m);
      }
    case Go(_) =>
      var m1 := ValidatedReady(w);
      if w.spec.dryRun {
        DryRunPatch(p, w, o, m1);
      } else {
        WorkerPassRules(p, w, o, m1);
      }
  }

  // ------------------------------------------------------------------ suspended

  /** What a suspend leaves of the status. */
  predicate SuspendShape(m: Status, n: Status) {
    && n == m.(conds := n.conds, phase := Phase.Suspended, jobName := None) && !True(n, RetryHeld)
    && SameCond(m, n, CloneCompleted) && SameCond(m, n, CaughtUp) && SameCond(m, n, CommitsBlocked)
    && SameCond(m, n, Complete) && SameCond(m, n, CondType.Failed)
  }

  lemma SuspendedLeaves(w: World, m: Status)
    ensures SuspendShape(m, SuspendedStatus(w, m))
  {
    var m1 := m.(jobName := None);
    var m2 := if ReownUnfinished(w) then SetCond(m1, OwnershipApplied, CondUnknown, OwnershipSuspended) else m1;
    assert forall t :: t != OwnershipApplied ==> SameCond(m1, m2, t);
    EndHoldLeaves(m2, HoldSuspended);
  }

  lemma SuspendedInv(v: World, m: Status, n: Status)
    requires Inv(v) && Near(v.status, m) && SuspendShape(m, n)
    requires Worker(v.status.attempts) in v.jobs ==> Stopping(v.jobs[Worker(v.status.attempts)])
    ensures Inv(v.(status := n))
  {
    SuspendKeepsBook(v, n);
  }

  lemma SuspendedRule(v: World, o: Obs, m: Status, n: Status)
    requires Near(v.status, m) && SuspendShape(m, n)
    requires !v.deleting && !v.gone && v.spec.suspend && !Terminal(v.status)
    ensures PatchRule(v, o, n, false)
  {
  }

  /** The writes before the suspended status only delete Jobs, which the rules allow a suspend. */
  lemma SuspendDeletes(p: WriteRule, w: World, o: Obs, x: Write)
    requires Covers(p, o) && Inv(w) && x.DeleteJob? && DeleteRule(w, x.key, x.policy)
    ensures Every(p, w, [x]) && Inv(Apply(w, x)) && ApplyAll(w, [x]) == Apply(w, x)
    ensures Apply(w, x).status == w.status && Apply(w, x).spec == w.spec
  {
    DeleteKeeps(w, x.key, x.policy);
    LawfulOne(p, w, o, x);
    assert [x][1..] == [];
  }

  /** What the deletes of a suspend leave alone. */
  ghost predicate Parked(w: World, v: World) {
    && Inv(v) && v == w.(jobs := v.jobs)
    && (Worker(w.status.attempts) in v.jobs ==> Stopping(v.jobs[Worker(w.status.attempts)]))
  }

  lemma ParkWorker(p: WriteRule, w: World, o: Obs, m: Status)
    requires Covers(p, o) && Inv(w) && Near(w.status, m) && w.spec.suspend
    ensures Every(p, w, CancelledWorker(w, m)) && Parked(w, ApplyAll(w, CancelledWorker(w, m)))
    ensures forall k: JobKey :: !k.Worker? ==> JobAt(ApplyAll(w, CancelledWorker(w, m)), k) == JobAt(w, k)
  {
    if m.jobName.Some? && Worker(m.jobName.value) in w.jobs {
      SuspendDeletes(p, w, o, DeleteJob(Worker(m.jobName.value), Foreground));
      WorkerParked(w, m);
    } else {
      assert ApplyAll(w, []) == w;
    }
  }

  lemma WorkerParked(w: World, m: Status)
    requires Inv(w) && Near(w.status, m) && m.jobName.Some? && Worker(m.jobName.value) in w.jobs
    requires Inv(Apply(w, DeleteJob(Worker(m.jobName.value), Foreground)))
    ensures Parked(w, Apply(w, DeleteJob(Worker(m.jobName.value), Foreground)))
  {
  }

  lemma ParkPreflight(p: WriteRule, w: World, v: World, o: Obs, m: Status)
    requires Covers(p, o) && Near(w.status, m) && w.spec.suspend && Parked(w, v)
    ensures Every(p, v, ParkedPreflight(w, m)) && Parked(w, ApplyAll(v, ParkedPreflight(w, m)))
    ensures JobAt(ApplyAll(v, ParkedPreflight(w, m)), JobKey.Reown) == JobAt(v, JobKey.Reown)
  {
    if m.attempts == 0 && JobKey.Preflight in w.jobs {
      SuspendDeletes(p, v, o, DeleteJob(JobKey.Preflight, Background));
    }
  }

  lemma ParkReown(p: WriteRule, w: World, v: World, o: Obs)
    requires Covers(p, o) && w.spec.suspend && Parked(w, v) && JobAt(v, JobKey.Reown) == JobAt(w, JobKey.Reown)
    ensures Every(p, v, ParkedReown(w)) && Parked(w, ApplyAll(v, ParkedReown(w)))
  {
    if ReownUnfinished(w) {
      SuspendDeletes(p, v, o, DeleteJob(JobKey.Reown, Foreground));
    }
  }

  lemma SuspendEnds(p: WriteRule, w: World, v: World, o: Obs, m: Status)
    requires Covers(p, o) && Near(w.status, m) && Parked(w, v)
    requires !w.deleting && !w.gone && w.spec.suspend && !Terminal(w.status)
    ensures Every(p, v, [DeleteJob(JobKey.Gate(m.attempts + 1), Background), Patch(SuspendedStatus(w, m), false)])
  {
    var x := DeleteJob(JobKey.Gate(m.attempts + 1), Background);
    SuspendDeletes(p, v, o, x);
    var u := Apply(v, x);
    SuspendedLeaves(w, m);
    SuspendedRule(u, o, m, SuspendedStatus(w, m));
    SuspendedInv(u, m, SuspendedStatus(w, m));
    LawfulOne(p, u, o, Patch(SuspendedStatus(w, m), false));
    EveryPair(p, v, x, Patch(SuspendedStatus(w, m), false));
  }

  lemma SuspendRules(p: WriteRule, w: World, o: Obs, m: Status)
    requires Covers(p, o) && Inv(w) && Near(w.status, m)
    requires !w.deleting && !w.gone && w.spec.suspend && !Terminal(w.status)
    ensures Every(p, w, SuspendWrites(w, m))
  {
    var a, b, c := CancelledWorker(w, m), ParkedPreflight(w, m), ParkedReown(w);
    var d := [DeleteJob(JobKey.Gate(m.attempts + 1), Background), Patch(SuspendedStatus(w, m), false)];
    ParkWorker(p, w, o, m);
    var v1 := ApplyAll(w, a);
    ParkPreflight(p, w, v1, o, m);
    var v2 := ApplyAll(v1, b);
    ParkReown(p, w, v2, o);
    var v3 := ApplyAll(v2, c);
    SuspendEnds(p, w, v3, o, m);
    EveryConcat(p, v2, c, d);
    EveryConcat(p, v1, b, c + d);
    EveryConcat(p, w, a, b + (c + d));
    SuspendWritesAre(w, m);
  }

  lemma SuspendWritesAre(w: World, m: Status)
    ensures SuspendWrites(w, m) ==
      CancelledWorker(w, m) + (ParkedPreflight(w, m) + (ParkedReown(w) +
      [DeleteJob(JobKey.Gate(m.attempts + 1), Background), Patch(SuspendedStatus(w, m), false)]))
  {
  }

  lemma SuspendedRules(p: WriteRule, w: World, o: Obs)
    requires Covers(p, o) && Inv(w) && !w.deleting && !w.gone && w.spec.suspend && !Terminal(w.status)
    ensures Every(p, w, ReconcileSuspended(w, w.status, o))
  {
    var c := CancelRehearsal(w, w.status, o, NoFault);
    CancelShape(w, w.status, o, NoFault);
    DeletesLawful(p, w, o, c.ws);
    SuspendRules(p, ApplyAll(w, c.ws), o, c.m);
    EveryConcat(p, w, c.ws, SuspendWrites(ApplyAll(w, c.ws), c.m));
  }

  // ------------------------------------------------------------------ deleted and terminal

  lemma DeletionRules(p: WriteRule, w: World, o: Obs)
    requires Covers(p, o) && Inv(w) && w.deleting
    ensures Every(p, w, DeletionWrites(w, o))
  {
    var m := w.status;
    if !w.finalizer {
    } else if m.attempts == 0 {
      DeletionEnds(p, w, o);
    } else if m.jobName.Some? && Worker(m.jobName.value) in w.jobs && !w.jobs[Worker(m.jobName.value)].deleting {
      SuspendDeletes(p, w, o, DeleteJob(Worker(m.jobName.value), Foreground));
    } else {
      DeletionCleanup(p, w, o);
      if CleanupOver(w, o) {
        DeletionEnds(p, w, o);
      }
    }
  }

  lemma DeletionEnds(p: WriteRule, w: World, o: Obs)
    requires Covers(p, o) && Inv(w) && w.deleting && (w.status.attempts == 0 || CleanupOver(w, o))
    ensures Every(p, w, [RemoveFinalizer])
  {
    SameKeeps(w, Apply(w, RemoveFinalizer));
    LawfulOne(p, w, o, RemoveFinalizer);
  }

  lemma DeletionCleanup(p: WriteRule, w: World, o: Obs)
    requires Covers(p, o) && Inv(w) && w.deleting
    ensures Every(p, w, [CreateJob(JobKey.Cleanup, NewJob(BuiltOther))])
  {
    CreateCleanupKeeps(w, NewJob(BuiltOther));
    LawfulOne(p, w, o, CreateJob(JobKey.Cleanup, NewJob(BuiltOther)));
  }

  lemma DeletedRules(p: WriteRule, w: World, o: Obs)
    requires Covers(p, o) && Inv(w) && w.deleting
    ensures Every(p, w, ReconcileDeletion(w, o))
  {
    var c := CancelRehearsal(w, w.status, o, NoFault);
    CancelShape(w, w.status, o, NoFault);
    DeletesLawful(p, w, o, c.ws);
    DeletionRules(p, ApplyAll(w, c.ws), o);
    EveryConcat(p, w, c.ws, DeletionWrites(ApplyAll(w, c.ws), o));
  }

  lemma TerminalRules(p: WriteRule, w: World, o: Obs)
    requires Covers(p, o) && Inv(w) && !w.deleting && !w.gone && Terminal(w.status)
    ensures Every(p, w, TerminalPass(w, o))
  {
    if RehearsalInProgress(w.status) {
      var c := CancelRehearsal(w, w.status, o, NoFault);
      CancelShape(w, w.status, o, NoFault);
      DeletesLawful(p, w, o, c.ws);
      OutcomePatch(p, w, ApplyAll(w, c.ws), o, c.m);
      EveryConcat(p, w, c.ws, [Patch(c.m, false)]);
    }
  }

  lemma OutcomePatch(p: WriteRule, w: World, v: World, o: Obs, n: Status)
    requires Covers(p, o) && Inv(v) && !w.deleting && !w.gone && Terminal(w.status)
    requires Winding(w, v) && OnlyOutcome(w.status, n)
    ensures Every(p, v, [Patch(n, false)])
  {
    NeutralPatch(p, v, o, n, false);
  }

  // ------------------------------------------------------------------ every pass

  lemma PassIsLawful(p: WriteRule, w: World, o: Obs)
    requires Covers(p, o) && Inv(w) && ValidObs(w, o)
    ensures Every(p, w, Pass(w, o))
  {
    var m := w.status;
    if w.gone {
    } else if w.deleting {
      DeletedRules(p, w, o);
    } else if Terminal(m) {
      TerminalRules(p, w, o);
    } else if m == EMPTY_STATUS {
      NeutralPatch(p, w, o, m.(phase := Phase.Pending), true);
    } else if w.spec.suspend {
      SuspendedRules(p, w, o);
    } else if !ValidSpec(w.spec) {
      EarlyFail(p, w, o, m, Reason.InvalidSpec);
    } else if w.spec.follow && !w.finalizer {
      FinalizerRules(p, w, o);
    } else {
      ActivePassRules(p, w, o);
    }
  }

  lemma FinalizerRules(p: WriteRule, w: World, o: Obs)
    requires Covers(p, o) && Inv(w) && ValidObs(w, o) && w.spec.follow
    requires Live(w.(finalizer := true))
    ensures Every(p, w, [AddFinalizer] + ActivePass(Apply(w, AddFinalizer), o))
  {
    var v := Apply(w, AddFinalizer);
    SameKeeps(w, v);
    LawfulOne(p, w, o, AddFinalizer);
    ActivePassRules(p, v, o);
    assert ApplyAll(w, [AddFinalizer]) == v by { assert [AddFinalizer][1..] == []; }
    EveryConcat(p, w, [AddFinalizer], ActivePass(v, o));
  }
}
