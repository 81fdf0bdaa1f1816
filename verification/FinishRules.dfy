/** Every write of the two finish paths obeys the rules and keeps the invariant. */
module FinishRules {
  import opened Text
  import opened Conditions
  import opened Samples
  import opened Cluster
  import opened Passes
  import opened Runs
  import opened Invariant
  import opened Steps
  import opened Rules
  import opened PassRules
  import opened ObserveRules

  /** How the finish path may have moved the copy's condition. */
  predicate CopyFinishes(w: World, m: Status) {
    SameCond(w.status, m, CloneCompleted) ||
    (True(m, CloneCompleted) && (w.spec.follow ==> !TablesEmptySeen(w.status)))
  }

  predicate BlockedFinishes(w: World, m: Status) {
    SameCond(w.status, m, CommitsBlocked) || (WorkerIs(w, Succeeded) && !True(m, CommitsBlocked))
  }

  /** Only the finish path remains, and m is its working copy. */
  ghost predicate FinishReady(w: World, m: Status) {
    && Inv(w) && Live(w) && !w.spec.dryRun && Settled(w)
    && w.status.attempts == m.attempts && w.status.exempt == m.exempt && w.status.gate == m.gate
    && w.status.jobName == m.jobName && w.status.repl == m.repl
    && Armed(w.status) == Armed(m) && LastRun(w.status) == LastRun(m)
    && !True(w.status, RetryHeld) && !True(m, RetryHeld)
    && SameCond(w.status, m, CaughtUp) && SameCond(w.status, m, Complete) && SameCond(w.status, m, CondType.Failed)
    && CopyFinishes(w, m) && BlockedFinishes(w, m)
  }

  // ------------------------------------------------------------------ its patches

  lemma FinishCopyRules(w: World, o: Obs, n: Status)
    requires Settled(w) && w.status.gate == n.gate && w.status.attempts == n.attempts
    requires CopyFinishes(w, n) && BlockedFinishes(w, n)
    requires Inv(w)
    ensures CopyRule(w, o, n) && StartOverRule(w, o, n) && BlockedRule(w, o, n) && !SnapshotLostSeen(n)
    ensures !Acting(w, o)
  {
  }

  lemma FinishRule(w: World, o: Obs, m: Status)
    requires FinishReady(w, m)
    ensures PatchRule(w, o, m, false)
  {
    FinishCopyRules(w, o, m);
  }

  lemma FinishInv(w: World, m: Status)
    requires Inv(w) && Settled(w) && SameBook(w.status, m) && !True(m, RetryHeld) && !SnapshotLostSeen(m)
    requires !(True(m, Complete) && True(m, CondType.Failed)) && !w.spec.dryRun
    ensures Inv(w.(status := m))
  {
    PatchKeepsBook(w, m);
  }

  /** The pass waits: its working copy lands as it is. */
  lemma WaitPatch(p: WriteRule, w: World, o: Obs, m: Status)
    requires Covers(p, o) && FinishReady(w, m)
    ensures Every(p, w, [Patch(m, false)])
  {
    FinishCopyRules(w, o, m);
    FinishRule(w, o, m);
    FinishInv(w, m);
    LawfulOne(p, w, o, Patch(m, false));
  }

  /** The finish path's own conditions and the phase move freely. */
  lemma FinishSets(w: World, m: Status, t: CondType, s: CondStatus, r: Reason)
    requires FinishReady(w, m) && t in {OwnershipApplied, CutoverCompleted, Verified, Validated}
    ensures FinishReady(w, SetCond(m, t, s, r))
  {
    var n := SetCond(m, t, s, r);
    assert SameCond(m, n, CloneCompleted) && SameCond(m, n, CaughtUp) && SameCond(m, n, CommitsBlocked);
    assert SameCond(m, n, Complete) && SameCond(m, n, CondType.Failed) && SameCond(m, n, RetryHeld);
    FinishMoves(w, m, n);
  }

  lemma FinishMoves(w: World, m: Status, n: Status)
    requires FinishReady(w, m) && n == m.(conds := n.conds)
    requires SameCond(m, n, CloneCompleted) && SameCond(m, n, CaughtUp) && SameCond(m, n, CommitsBlocked)
    requires SameCond(m, n, Complete) && SameCond(m, n, CondType.Failed) && SameCond(m, n, RetryHeld)
    ensures FinishReady(w, n)
  {
  }

  lemma FinishSteps(w: World, m: Status, n: Status)
    requires FinishReady(w, m) && n == m.(phase := n.phase, verification := n.verification)
    ensures FinishReady(w, n)
  {
  }

  /** A finish path that fails; the copy's own condition may have turned False with it. */
  lemma FinishFails(p: WriteRule, w: World, o: Obs, m: Status, r: Reason)
    requires Covers(p, o) && FinishReady(w, m) && FailsRule(w, Fail(m, r))
    ensures Every(p, w, [Patch(Fail(m, r), false)])
  {
    FailLeaves(m, r);
    FinishCopyRules(w, o, Fail(m, r));
    FailPatch(p, w, o, Fail(m, r));
  }

  // ------------------------------------------------------------------ its Jobs

  /** A finish Job is created, and the pass waits for it. */
  lemma CreateAndWait(p: WriteRule, w: World, o: Obs, k: JobKey, m: Status)
    requires Covers(p, o) && FinishReady(w, m) && CreateRule(w, o, k, NewJob(BuiltOther))
    requires k.Verify? || k.Reown? || k.Cleanup? || k.Compare? || k.Catalog?
    ensures Every(p, w, [CreateJob(k, NewJob(BuiltOther)), Patch(m, false)])
  {
    var x := CreateJob(k, NewJob(BuiltOther));
    FinishCreates(w, o, k, m);
    LawfulOne(p, w, o, x);
    WaitPatch(p, Apply(w, x), o, m);
    EveryPair(p, w, x, Patch(m, false));
  }

  lemma FinishCreates(w: World, o: Obs, k: JobKey, m: Status)
    requires FinishReady(w, m) && CreateRule(w, o, k, NewJob(BuiltOther))
    requires k.Verify? || k.Reown? || k.Cleanup? || k.Compare? || k.Catalog?
    ensures Inv(Apply(w, CreateJob(k, NewJob(BuiltOther)))) &&
            FinishReady(Apply(w, CreateJob(k, NewJob(BuiltOther))), m)
  {
    var j := NewJob(BuiltOther);
    match k {
      case Verify => CreateVerifyKeeps(w, j);
      case Reown => CreateReownKeeps(w, j);
      case Cleanup => CreateCleanupKeeps(w, j);
      case _ => CreateSideJobKeeps(w, k, j);
    }
    CreateFrames(w, k, j);
    SettledFrame(w, Apply(w, CreateJob(k, j)));
  }

  /** A stage is lawful: it ends the pass lawfully or goes on with a copy of the finish path. */
  ghost predicate StageRules(p: WriteRule, w: World, f: Finish) {
    match f
    case Stop(ws) => Every(p, w, ws)
    case Go(n) => FinishReady(w, n)
  }

  lemma ReownRules(p: WriteRule, w: World, o: Obs, m: Status, running: Phase)
    requires Covers(p, o) && FinishReady(w, m) && Drained(w)
    ensures StageRules(p, w, ReownGate(w, m, running))
    ensures ReownGate(w, m, running).Go? ==> HandedOver(w)
  {
    var waiting := SetCond(m, OwnershipApplied, CondUnknown, OwnershipRunning).(phase := running);
    FinishSets(w, m, OwnershipApplied, CondUnknown, OwnershipRunning);
    FinishSteps(w, SetCond(m, OwnershipApplied, CondUnknown, OwnershipRunning), waiting);
    if w.spec.reown {
      match JobAt(w, JobKey.Reown)
      case None => CreateAndWait(p, w, o, JobKey.Reown, waiting);
      case Some(j) =>
        match j.state
        case Running => WaitPatch(p, w, o, waiting);
        case Failed => ReownFails(p, w, o, m);
        case Succeeded => FinishSets(w, m, OwnershipApplied, CondTrue, OwnershipDone);
    }
  }

  lemma ReownFails(p: WriteRule, w: World, o: Obs, m: Status)
    requires Covers(p, o) && FinishReady(w, m) && JobIs(w, JobKey.Reown, JobState.Failed)
    ensures Every(p, w,
              [Patch(Fail(SetCond(m, OwnershipApplied, CondFalse, Reason.OwnershipFailed), Reason.OwnershipFailed),
              false)])
  {
    var m1 := SetCond(m, OwnershipApplied, CondFalse, Reason.OwnershipFailed);
    FinishSets(w, m, OwnershipApplied, CondFalse, Reason.OwnershipFailed);
    FailLeaves(m1, Reason.OwnershipFailed);
    FinishFails(p, w, o, m1, Reason.OwnershipFailed);
  }

  lemma CleanupRules(p: WriteRule, w: World, o: Obs, m: Status)
    requires Covers(p, o) && FinishReady(w, m) && w.spec.follow && Drained(w) && HandedOver(w)
    ensures StageRules(p, w, EnsureCleanup(w, o, m))
    ensures EnsureCleanup(w, o, m).Go? ==> CleanupOver(w, o)
  {
    match JobAt(w, JobKey.Cleanup)
    case None =>
      if !o.nsTerminating {
        CreateAndWait(p, w, o, JobKey.Cleanup, m);
      }
    case Some(j) =>
      if j.state.Running? {
        WaitPatch(p, w, o, m);
      }
  }

  // ------------------------------------------------------------------ the compares

  lemma ResultsGrow(w: World, cs: seq<Check>, i: nat)
    requires i < |cs| && forall c :: c in cs[..i + 1] ==> Compare(c) in w.jobs
    ensures forall c :: c in cs[..i] ==> Compare(c) in w.jobs
    ensures Compare(cs[i]) in w.jobs
    ensures Results(w, cs[..i + 1]) ==
              Results(w, cs[..i]) + [CheckResult(cs[i], w.jobs[Compare(cs[i])].state.Succeeded?)]
  {
    assert cs[..i + 1] == cs[..i] + [cs[i]];
    assert cs[i] in cs[..i + 1];
    assert forall c :: c in cs[..i] ==> c in cs[..i + 1];
  }

  predicate Over(w: World, cs: seq<Check>) {
    forall c :: c in cs ==> Compare(c) in w.jobs && !w.jobs[Compare(c)].state.Running?
  }

  lemma SchemaFirst(s: Spec, i: nat)
    requires i < |EnabledChecks(s)|
    ensures EnabledChecks(s)[i].Data? && s.verifySchema ==> Schema in EnabledChecks(s)[..i]
  {
    if s.verifySchema && EnabledChecks(s)[i].Data? {
      assert i == 1 && EnabledChecks(s)[..1][0] == Schema;
    }
  }

  lemma CompareStarts(p: WriteRule, w: World, o: Obs, m: Status, i: nat)
    requires Covers(p, o) && FinishReady(w, m) && Drained(w) && HandedOver(w) && (w.spec.follow ==> CleanupOver(w, o))
    requires i < |EnabledChecks(w.spec)| && Over(w, EnabledChecks(w.spec)[..i])
    ensures var n := SetCond(m, Verified, CondUnknown, VerificationRunning);
            Every(p, w, [CreateJob(Compare(EnabledChecks(w.spec)[i]), NewJob(BuiltOther)), Patch(n, false)])
  {
    SchemaFirst(w.spec, i);
    FinishSets(w, m, Verified, CondUnknown, VerificationRunning);
    CreateAndWait(p, w, o, Compare(EnabledChecks(w.spec)[i]), SetCond(m, Verified, CondUnknown, VerificationRunning));
  }

  /** One more finished compare is recorded. */
  lemma CompareRecorded(w: World, m: Status, i: nat) returns (n: Status)
    requires FinishReady(w, m) && i < |EnabledChecks(w.spec)| && Over(w, EnabledChecks(w.spec)[..i])
    requires m.verification == Results(w, EnabledChecks(w.spec)[..i])
    requires Compare(EnabledChecks(w.spec)[i]) in w.jobs && !w.jobs[Compare(EnabledChecks(w.spec)[i])].state.Running?
    ensures var cs := EnabledChecks(w.spec);
            && n == m.(verification := m.verification + [CheckResult(cs[i], w.jobs[Compare(cs[i])].state.Succeeded?)])
            && FinishReady(w, n) && Over(w, cs[..i + 1]) && n.verification == Results(w, cs[..i + 1])
  {
    var cs := EnabledChecks(w.spec);
    n := m.(verification := m.verification + [CheckResult(cs[i], w.jobs[Compare(cs[i])].state.Succeeded?)]);
    assert cs[..i + 1] == cs[..i] + [cs[i]];
    ResultsGrow(w, cs, i);
    FinishSteps(w, m, n);
  }

  /** The compares run one at a time, in order, and each finished one is recorded. */
  lemma {:induction false} CompareLoopRules(p: WriteRule, w: World, o: Obs, m: Status, i: nat)
    requires Covers(p, o) && FinishReady(w, m) && Drained(w) && HandedOver(w) && (w.spec.follow ==> CleanupOver(w, o))
    requires i <= |EnabledChecks(w.spec)| && Over(w, EnabledChecks(w.spec)[..i])
    requires m.verification == Results(w, EnabledChecks(w.spec)[..i])
    ensures StageRules(p, w, CompareLoop(w, m, o, EnabledChecks(w.spec)[i..]))
    ensures CompareLoop(w, m, o, EnabledChecks(w.spec)[i..]).Go? ==>
              Over(w, EnabledChecks(w.spec)) &&
              CompareLoop(w, m, o, EnabledChecks(w.spec)[i..]).m.verification == Results(w, EnabledChecks(w.spec))
    decreases |EnabledChecks(w.spec)| - i
  {
    var cs := EnabledChecks(w.spec);
    if i == |cs| {
      assert cs[..i] == cs;
    } else {
      assert cs[i..][0] == cs[i] && cs[i..][1..] == cs[i + 1..];
      match JobAt(w, Compare(cs[i]))
      case None => CompareStarts(p, w, o, m, i);
      case Some(j) =>
        if j.state.Running? {
          WaitPatch(p, w, o, m);
        } else {
          var n := CompareRecorded(w, m, i);
          CompareLoopRules(p, w, o, n, i + 1);
        }
    }
  }

  lemma JudgedCompares(w: World, m: Status)
    requires FinishReady(w, m) && EnabledChecks(w.spec) != [] && Over(w, EnabledChecks(w.spec))
    requires m.verification == Results(w, EnabledChecks(w.spec))
    ensures FinishReady(w, JudgeCompares(m)) && Compared(w, JudgeCompares(m))
  {
    FinishSets(w, m, Verified, CondTrue, ComparePassed);
    FinishSets(w, m, Verified, CondFalse, SchemaMismatch);
    FinishSets(w, m, Verified, CondFalse, DataMismatch);
    AllPassed(w, EnabledChecks(w.spec));
  }

  lemma AllPassed(w: World, cs: seq<Check>)
    requires Over(w, cs)
    ensures (forall r :: r in Results(w, cs) ==> r.passed) <==>
              (forall c :: c in cs ==> JobIs(w, Compare(c), Succeeded))
  {
    var rs := Results(w, cs);
    forall c | c in cs ensures CheckResult(c, w.jobs[Compare(c)].state.Succeeded?) in rs {
      var i :| 0 <= i < |cs| && cs[i] == c;
      assert rs[i] in rs;
    }
  }

  lemma VerificationRules(p: WriteRule, w: World, o: Obs, m: Status)
    requires Covers(p, o) && FinishReady(w, m) && Drained(w) && HandedOver(w) && (w.spec.follow ==> CleanupOver(w, o))
    ensures StageRules(p, w, EnsureVerification(w, m, o))
    ensures EnsureVerification(w, m, o).Go? ==> Compared(w, EnsureVerification(w, m, o).m)
  {
    var cs := EnabledChecks(w.spec);
    if cs != [] {
      var m1 := m.(phase := Phase.Verifying, verification := []);
      FinishSteps(w, m, m1);
      assert cs[..0] == [] && cs[0..] == cs;
      CompareLoopRules(p, w, o, m1, 0);
      match CompareLoop(w, m1, o, cs)
      case Stop(_) =>
      case Go(n) => JudgedCompares(w, n);
    }
  }

  // ------------------------------------------------------------------ completing

  lemma CompletedRule(w: World, o: Obs, m: Status)
    requires FinishReady(w, m) && CompletesRule(w, o, CompletedStatus(m, MigrationSucceeded))
    ensures PatchRule(w, o, CompletedStatus(m, MigrationSucceeded), false)
  {
    var n := CompletedStatus(m, MigrationSucceeded);
    assert forall t :: t != Complete ==> SameCond(m, n, t);
    FinishCopyRules(w, o, n);
  }

  lemma CompletedInv(w: World, o: Obs, m: Status)
    requires FinishReady(w, m)
    ensures Inv(w.(status := CompletedStatus(m, MigrationSucceeded)))
  {
    var n := CompletedStatus(m, MigrationSucceeded);
    assert forall t :: t != Complete ==> SameCond(m, n, t);
    FinishCopyRules(w, o, n);
    FinishInv(w, n);
  }

  lemma FinishWithRules(p: WriteRule, w: World, o: Obs, m: Status)
    requires Covers(p, o) && FinishReady(w, m) && Drained(w) && HandedOver(w) && (w.spec.follow ==> CleanupOver(w, o))
    ensures Every(p, w, FinishWith(w, m, o))
  {
    VerificationRules(p, w, o, m);
    match EnsureVerification(w, m, o)
    case Stop(_) =>
    case Go(n) =>
      ComparedStays(w, n);
      CompletedRule(w, o, n);
      CompletedInv(w, o, n);
      LawfulOne(p, w, o, Patch(CompletedStatus(n, MigrationSucceeded), false));
  }

  lemma ComparedStays(w: World, m: Status)
    requires Compared(w, m)
    ensures Compared(w, CompletedStatus(m, MigrationSucceeded))
  {
  }

  // ------------------------------------------------------------------ the clone-only path

  lemma CatalogRules(p: WriteRule, w: World, o: Obs, m: Status)
    requires Covers(p, o) && FinishReady(w, m) && !w.spec.follow && SameCond(w.status, m, CloneCompleted)
    ensures StageRules(p, w, CatalogGate(w, m, o))
    ensures CatalogGate(w, m, o).Go? ==> CatalogGate(w, m, o).m == m
  {
    if True(m, CloneCompleted) || w.spec.allDatabases || !o.catalogGate {
    } else {
      match JobAt(w, Catalog)
      case None => CreateAndWait(p, w, o, Catalog, m);
      case Some(j) =>
        if j.state.Running? {
          WaitPatch(p, w, o, m);
        } else if o.catalogOwed.Some? && o.catalogOwed.value > 0 {
          CatalogFails(p, w, o, m);
        }
    }
  }

  lemma CatalogFails(p: WriteRule, w: World, o: Obs, m: Status)
    requires Covers(p, o) && FinishReady(w, m) && !w.spec.follow && SameCond(w.status, m, CloneCompleted)
    requires !True(m, CloneCompleted) && Catalog in w.jobs && !w.jobs[Catalog].state.Running?
    ensures Every(p, w, [Patch(Fail(SetCond(m, CloneCompleted, CondFalse, CloneIncomplete), CloneIncomplete), false)])
  {
    var m1 := SetCond(m, CloneCompleted, CondFalse, CloneIncomplete);
    assert forall t :: t != CloneCompleted ==> SameCond(m, m1, t);
    FailLeaves(m1, CloneIncomplete);
    FinishCopyRules(w, o, w.status);
    FailPatch(p, w, o, Fail(m1, CloneIncomplete));
  }

  lemma FinishCloneRules(p: WriteRule, w: World, o: Obs, m: Status)
    requires Covers(p, o) && FinishReady(w, m) && !w.spec.follow && SameCond(w.status, m, CloneCompleted)
    ensures Every(p, w, FinishClone(w, m, o))
  {
    CatalogRules(p, w, o, m);
    match CatalogGate(w, m, o)
    case Stop(_) =>
    case Go(_) =>
      var m1 := SetCond(m, CloneCompleted, CondTrue, CloneSucceeded);
      CloneDone(w, m, CloneSucceeded);
      ReownRules(p, w, o, m1, Phase.Finalizing);
      match ReownGate(w, m1, Phase.Finalizing)
      case Stop(_) =>
      case Go(m2) => FinishWithRules(p, w, o, m2);
  }

  lemma CloneDone(w: World, m: Status, r: Reason)
    requires FinishReady(w, m) && (w.spec.follow ==> !TablesEmptySeen(w.status))
    ensures FinishReady(w, SetCond(m, CloneCompleted, CondTrue, r))
  {
    var n := SetCond(m, CloneCompleted, CondTrue, r);
    assert SameCond(m, n, CaughtUp) && SameCond(m, n, CommitsBlocked) && SameCond(m, n, RetryHeld);
    assert SameCond(m, n, Complete) && SameCond(m, n, CondType.Failed);
  }

  // ------------------------------------------------------------------ the live path

  lemma VerifyRules(p: WriteRule, w: World, o: Obs, m: Status)
    requires Covers(p, o) && FinishReady(w, m) && w.spec.follow &&
             (RehearsalPod(w) ==> True(w.status, CutoverCompleted))
    ensures StageRules(p, w, EnsureVerify(w, m))
    ensures EnsureVerify(w, m).Go? ==> EnsureVerify(w, m).m == m && Drained(w)
  {
    match JobAt(w, JobKey.Verify)
    case None => CreateAndWait(p, w, o, JobKey.Verify, m);
    case Some(j) =>
      match j.state
      case Running => WaitPatch(p, w, o, m);
      case Failed => DrainFails(p, w, o, m);
      case Succeeded =>
  }

  lemma DrainFails(p: WriteRule, w: World, o: Obs, m: Status)
    requires Covers(p, o) && FinishReady(w, m) && JobIs(w, JobKey.Verify, JobState.Failed)
    ensures Every(p, w, [Patch(Fail(SetCond(m, CutoverCompleted, CondFalse, DrainIncomplete), DrainIncomplete), false)])
  {
    var m1 := SetCond(m, CutoverCompleted, CondFalse, DrainIncomplete);
    FinishSets(w, m, CutoverCompleted, CondFalse, DrainIncomplete);
    FailLeaves(m1, DrainIncomplete);
    FinishFails(p, w, o, m1, DrainIncomplete);
  }

  lemma DrainWaitsReady(w: World, m: Status)
    requires FinishReady(w, m) && SameCond(w.status, m, CutoverCompleted)
    ensures FinishReady(w, DrainWaits(w, m).0)
    ensures !DrainWaits(w, m).1 ==> (RehearsalPod(w) ==> True(w.status, CutoverCompleted))
  {
    FinishSets(w, m, CutoverCompleted, CondUnknown, RehearsalPodRemains);
    var n := m.(conds := m.conds - {CutoverCompleted});
    assert forall t :: t != CutoverCompleted ==> SameCond(m, n, t);
  }

  lemma DrainRules(p: WriteRule, w: World, o: Obs, m: Status)
    requires Covers(p, o) && FinishReady(w, m) && w.spec.follow && SameCond(w.status, m, CutoverCompleted)
    ensures Every(p, w, DrainPass(w, m, o))
  {
    DrainWaitsReady(w, m);
    var m1 := DrainWaits(w, m).0;
    if DrainWaits(w, m).1 {
      WaitPatch(p, w, o, m1);
    } else {
      VerifyRules(p, w, o, m1);
      match EnsureVerify(w, m1)
      case Stop(_) =>
      case Go(_) => DrainedRules(p, w, o, m1);
    }
  }

  /** What follows a proven drain: the handover, the cleanup, the compares. */
  lemma DrainedRules(p: WriteRule, w: World, o: Obs, m: Status)
    requires Covers(p, o) && FinishReady(w, m) && w.spec.follow && Drained(w)
    ensures Every(p, w, AfterDrain(w, m, o))
  {
    ReownRules(p, w, o, m, Phase.CuttingOver);
    match ReownGate(w, m, Phase.CuttingOver)
    case Stop(_) =>
    case Go(m2) =>
      var m3 := SetCond(m2, CutoverCompleted, CondTrue, DrainVerified);
      FinishSets(w, m2, CutoverCompleted, CondTrue, DrainVerified);
      CleanupRules(p, w, o, m3);
      match EnsureCleanup(w, o, m3)
      case Stop(_) =>
      case Go(m4) => FinishWithRules(p, w, o, m4);
  }

  lemma DrainCopyReady(w: World, m: Status)
    requires FinishReady(w, m) && SameCond(w.status, m, CutoverCompleted) && SameCond(w.status, m, CloneCompleted)
    ensures FinishReady(w, DrainCopy(m)) && SameCond(w.status, DrainCopy(m), CutoverCompleted)
  {
    var m1 := if TablesEmptySeen(m) then m else SetCond(m, CloneCompleted, CondTrue, BaseCopyDone);
    if !TablesEmptySeen(m) {
      CloneDone(w, m, BaseCopyDone);
    }
    FinishSteps(w, m1, DrainCopy(m));
  }

  lemma CanceledReady(w: World, v: World, m: Status, n: Status)
    requires FinishReady(w, m) && Winding(w, v) && Inv(v) && OnlyOutcome(m, n)
    ensures FinishReady(v, n)
  {
  }

  lemma FinishFollowRules(p: WriteRule, w: World, o: Obs, m: Status)
    requires Covers(p, o) && FinishReady(w, m) && w.spec.follow
    requires SameCond(w.status, m, CutoverCompleted) && SameCond(w.status, m, CloneCompleted)
    ensures Every(p, w, FinishFollow(w, m, o))
  {
    var c := CancelRehearsal(w, DrainCopy(m), o, NoFault);
    var v := ApplyAll(w, c.ws);
    DrainCopyReady(w, m);
    CancelShape(w, DrainCopy(m), o, NoFault);
    DeletesLawful(p, w, o, c.ws);
    CanceledReady(w, v, DrainCopy(m), c.m);
    DrainRules(p, v, o, c.m);
    EveryConcat(p, w, c.ws, DrainPass(v, c.m, o));
  }
}
