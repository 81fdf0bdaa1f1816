/** The passes of a recorded worker put together: one that runs, and one that failed. */
module WorkerRules {
  import opened Text
  import opened Conditions
  import opened Samples
  import opened Cluster
  import opened Passes
  import opened Runs
  import opened Invariant
  import opened Steps
  import opened Rules
  import opened PassRules
  import opened GateRules
  import opened ObserveRules

  // ------------------------------------------------------------------ a running worker

  lemma ActingIs(w: World, o: Obs, m: Status)
    requires WorkerReady(w, m, Running)
    ensures Acting(w, o) <==> (w.spec.follow && o.sentinel.Some? && ObserveCopy(w.spec, m, o).1)
    ensures o.sentinel.Some? ==> (NowBelow(w, o) <==> Below(w.spec, CarryForward(o.sentinel.value, m.repl)))
  {
    NearDone(w.spec, w.status, m, o);
  }

  lemma AsksMeansCutover(w: World, o: Obs, m: Status)
    requires WorkerReady(w, m, Running)
    ensures Asks(w.spec, m, o) ==> CutoverRule(w, o)
  {
    ActingIs(w, o, m);
    NearReads(w.spec, w.status, m, o);
  }

  lemma ObservedStream(v: World, o: Obs, m: Status, n: Status)
    requires WorkerReady(v, m, Running) && Streamed(v.spec, m, o, n, Asks(v.spec, m, o))
    ensures EndposRule(v, o, n) && LatchRule(v, o, n)
  {
    ActingIs(v, o, m);
    AsksMeansCutover(v, o, m);
  }

  lemma ObservedCopy(v: World, o: Obs, m: Status, n: Status)
    requires WorkerReady(v, m, Running) && Observed(v.spec, m, o, n)
    requires CopyMoves(v.spec, m, o, n, ObserveCopy(v.spec, m, o).1)
    ensures CopyRule(v, o, n) && StartOverRule(v, o, n) && BlockedRule(v, o, n)
  {
    RecordedFacts(v, m, Running);
    NearReads(v.spec, v.status, m, o);
  }

  lemma ObservedRule(v: World, o: Obs, m: Status, n: Status)
    requires WorkerReady(v, m, Running) && Observed(v.spec, m, o, n) && RunRule(v, n)
    requires CopyMoves(v.spec, m, o, n, ObserveCopy(v.spec, m, o).1)
    requires Streamed(v.spec, m, o, n, Asks(v.spec, m, o))
    ensures PatchRule(v, o, n, false)
  {
    ObservedStream(v, o, m, n);
    ObservedCopy(v, o, m, n);
  }

  lemma ObservedInv(v: World, o: Obs, m: Status, n: Status)
    requires WorkerReady(v, m, Running) && Observed(v.spec, m, o, n) && RunMoves(v, m, n)
    requires CopyMoves(v.spec, m, o, n, ObserveCopy(v.spec, m, o).1)
    requires !True(n, RetryHeld)
    ensures Inv(v.(status := n))
  {
    RecordedFacts(v, m, Running);
    if OpenRun(n) == OpenRun(m) {
      PatchKeepsBook(v, n);
    } else {
      DisarmKeepsBook(v, n);
    }
  }

  lemma {:induction false} ProbesDeleted(p: WriteRule, w: World, o: Obs, ks: seq<JobKey>)
    requires Covers(p, o) && Inv(w) && forall k :: k in ks ==> k.Gate?
    ensures Every(p, w, Deletes(ks, Background))
    decreases |ks|
  {
    if ks != [] {
      var x := DeleteJob(ks[0], Background);
      assert ks[0] in ks;
      DeleteKeeps(w, ks[0], Background);
      assert Lawful(w, o, x);
      ProbesDeleted(p, Apply(w, x), o, ks[1..]);
      assert Deletes(ks, Background)[1..] == Deletes(ks[1..], Background);
    }
  }

  lemma {:induction false} ProbesAreGates(list: seq<JobKey>)
    ensures forall k :: k in StrayProbes(list) <==> k in list && k.Gate?
  {
    if list != [] {
      ProbesAreGates(list[1..]);
      assert forall k :: k in list <==> k == list[0] || k in list[1..];
    }
  }

  /** What the pass has done and learnt when it patches the status. */
  ghost predicate StepObserved(p: WriteRule, w: World, o: Obs, m: Status, f: Step) {
    var v := ApplyAll(w, f.ws);
    && Every(p, w, f.ws) && Inv(v) && Aside(w, v) && RunRule(v, f.m) && RunMoves(v, m, f.m)
    && Observed(w.spec, m, o, f.m) && CopyMoves(w.spec, m, o, f.m, ObserveCopy(w.spec, m, o).1)
    && Streamed(w.spec, m, o, f.m, Asks(w.spec, m, o)) && SameCond(m, f.m, RetryHeld)
  }

  lemma EndposAsked(p: WriteRule, w: World, o: Obs, m: Status)
    requires Covers(p, o) && WorkerReady(w, m, Running)
    ensures Every(p, w, if Asks(w.spec, m, o) then [SetEndpos] else [])
  {
    AsksMeansCutover(w, o, m);
    if Asks(w.spec, m, o) {
      LawfulOne(p, w, o, SetEndpos);
    }
  }

  /** What the copy and the stream leave, with the step named. */
  lemma StreamNamed(s: Spec, m: Status, o: Obs) returns (f: Step)
    requires o.sentinel.Some? ==> o.sentinel.value.endpos == ""
    ensures f == StreamStep(s, m, o) && f.m.rehearsal == m.rehearsal && SameCond(m, f.m, RetryHeld)
    ensures Observed(s, m, o, f.m) && CopyMoves(s, m, o, f.m, ObserveCopy(s, m, o).1)
    ensures Streamed(s, m, o, f.m, Asks(s, m, o)) && f.ws == (if Asks(s, m, o) then [SetEndpos] else [])
  {
    StreamStepObserved(s, m, o);
    StreamStepStreamed(s, m, o);
    f := StreamStep(s, m, o);
  }

  lemma StreamSteps(p: WriteRule, w: World, o: Obs, m: Status) returns (f: Step)
    requires Covers(p, o) && WorkerReady(w, m, Running) && ValidObs(w, o)
    ensures f == StreamStep(w.spec, m, o) && f.m.rehearsal == m.rehearsal
    ensures StepObserved(p, w, o, m, f) && ApplyAll(w, f.ws) == w
  {
    f := StreamNamed(w.spec, m, o);
    EndposAsked(p, w, o, m);
    ApplyOne(w, SetEndpos);
    StillThere(w, m, f.m);
  }

  /** A step that leaves the world and the rehearsal alone. */
  lemma StillThere(w: World, m: Status, n: Status)
    requires WorkerReady(w, m, Running) && n.rehearsal == m.rehearsal
    ensures Inv(w) && Aside(w, w) && RunRule(w, n) && RunMoves(w, m, n)
  {
  }

  /** The rehearsal step touches nothing the stream step decided. */
  lemma RehearsalKeepsStream(s: Spec, m: Status, o: Obs, a: Status, b: Status)
    requires RehearsalOnly(a, b) && Observed(s, m, o, a) && Streamed(s, m, o, a, Asks(s, m, o))
    requires CopyMoves(s, m, o, a, ObserveCopy(s, m, o).1)
    ensures Observed(s, m, o, b) && Streamed(s, m, o, b, Asks(s, m, o))
    ensures CopyMoves(s, m, o, b, ObserveCopy(s, m, o).1)
  {
  }

  /** RehearsalRules, with the step named. */
  lemma RehearsalNamed(p: WriteRule, w: World, o: Obs, m: Status) returns (r: Step)
    requires Covers(p, o) && Inv(w) && m.rehearsal == w.status.rehearsal && ValidObs(w, o)
    requires Live(w) && w.spec.follow && WorkerIs(w, Running)
    ensures r == ReconcileRehearsal(w, m, o) && RehearsalStepRules(p, w, m, r)
  {
    RehearsalRules(p, w, o, m);
    r := ReconcileRehearsal(w, m, o);
  }

  /** The rehearsal step's writes follow the stream step's. */
  lemma JoinedSteps(p: WriteRule, w: World, o: Obs, m: Status, f: Step, r: Step)
    requires StepObserved(p, w, o, m, f) && ApplyAll(w, f.ws) == w && f.m.rehearsal == m.rehearsal
    requires RehearsalStepRules(p, w, f.m, r)
    ensures StepObserved(p, w, o, m, Step(r.m, f.ws + r.ws, false))
  {
    RehearsalKeepsStream(w.spec, m, o, f.m, r.m);
    EveryConcat(p, w, f.ws, r.ws);
    ApplyAllConcat(w, f.ws, r.ws);
  }

  lemma RehearsalSteps(p: WriteRule, w: World, o: Obs, m: Status, f: Step)
    requires Covers(p, o) && WorkerReady(w, m, Running) && ValidObs(w, o) && w.spec.follow
    requires StepObserved(p, w, o, m, f) && ApplyAll(w, f.ws) == w && f.m.rehearsal == m.rehearsal
    ensures StepObserved(p, w, o, m, RehearsalStep(w, f, o))
  {
    var r := RehearsalNamed(p, w, o, f.m);
    JoinedSteps(p, w, o, m, f, r);
  }

  lemma ObservedPatch(p: WriteRule, v: World, o: Obs, m: Status, n: Status)
    requires Covers(p, o) && WorkerReady(v, m, Running) && Observed(v.spec, m, o, n) && RunRule(v, n) &&
             RunMoves(v, m, n)
    requires CopyMoves(v.spec, m, o, n, ObserveCopy(v.spec, m, o).1)
    requires Streamed(v.spec, m, o, n, Asks(v.spec, m, o)) && SameCond(m, n, RetryHeld)
    ensures EndHold(n, GatePassed) == n
    ensures Every(p, v, [Patch(n, false)] + Deletes(StrayProbes(o.jobList), Background))
  {
    RecordedFacts(v, m, Running);
    ObservedRule(v, o, m, n);
    ObservedInv(v, o, m, n);
    LawfulOne(p, v, o, Patch(n, false));
    ProbesAreGates(o.jobList);
    ProbesDeleted(p, v.(status := n), o, StrayProbes(o.jobList));
    BehindPatch(p, v, n, false, Deletes(StrayProbes(o.jobList), Background));
  }

  lemma AsideReady(w: World, v: World, m: Status)
    requires WorkerReady(w, m, Running) && Aside(w, v) && Inv(v)
    ensures WorkerReady(v, m, Running)
  {
  }

  lemma ObserveRunningRules(p: WriteRule, w: World, o: Obs, m: Status)
    requires Covers(p, o) && WorkerReady(w, m, Running) && ValidObs(w, o)
    ensures Every(p, w, ObserveRunningJob(w, m, o))
  {
    var s := StreamSteps(p, w, o, m);
    if w.spec.follow {
      RehearsalSteps(p, w, o, m, s);
    }
    ObserveEnds(p, w, o, m, RehearsalStep(w, s, o));
  }

  lemma ObserveEnds(p: WriteRule, w: World, o: Obs, m: Status, f: Step)
    requires Covers(p, o) && WorkerReady(w, m, Running) && StepObserved(p, w, o, m, f)
    ensures Every(p, w, f.ws + ([Patch(EndHold(f.m, GatePassed), false)] + Deletes(StrayProbes(o.jobList), Background)))
  {
    var v := ApplyAll(w, f.ws);
    AsideReady(w, v, m);
    ObservedPatch(p, v, o, m, f.m);
    EveryConcat(p, w, f.ws, [Patch(f.m, false)] + Deletes(StrayProbes(o.jobList), Background));
  }

  // ------------------------------------------------------------------ a failed worker

  predicate TailOf(o: Obs, t: Tail) {
    if o.failLog.Readable? then t == o.failLog.found else t == NO_TAIL
  }

  lemma TerminalPatch(p: WriteRule, w: World, o: Obs, m: Status, r: Reason)
    requires Covers(p, o) && WorkerReady(w, m, JobState.Failed)
    requires r in {PermissionDenied, DiskFull, SchemaDrift} || (r == SnapshotLost && !w.spec.dropIfExists)
    ensures Every(p, w, [Patch(Fail(SetCond(m, CloneCompleted, CondFalse, CloneFailed), r), false)])
  {
    RecordedFacts(w, m, JobState.Failed);
    var n := CopyFailed(m, r);
    FailPatch(p, w, o, n);
  }

  lemma CopyFailed(m: Status, r: Reason) returns (n: Status)
    ensures n == Fail(SetCond(m, CloneCompleted, CondFalse, CloneFailed), r) && FailShape(m, n)
    ensures n.conds[CondType.Failed].reason == r && Latched(n.conds, CloneCompleted, CloneFailed) &&
            SameCond(m, n, CommitsBlocked)
  {
    var m1 := SetCond(m, CloneCompleted, CondFalse, CloneFailed);
    n := Fail(m1, r);
    assert SameCond(m, m1, CommitsBlocked) && SameCond(m, m1, CaughtUp) && SameCond(m, m1, Complete);
    FailLeaves(m1, r);
  }

  /** What the hand-over to the gate changes. */
  predicate HandOverShape(m: Status, n: Status) {
    && n == m.(conds := n.conds, phase := n.phase, gate := n.gate, jobName := None)
    && n.gate.Some? && n.gate.value.failedAttempt == m.attempts && n.gate.value.verdict.Undecided?
    && SameCond(m, n, CaughtUp) && SameCond(m, n, CommitsBlocked) && SameCond(m, n, Complete)
    && SameCond(m, n, CondType.Failed) && n.phase != Phase.Suspended
  }

  lemma HandOverLeaves(s: Spec, m: Status, failedAt: int, t: Tail)
    requires !s.suspend
    ensures var n := HandedToGate(s, m, failedAt, t);
            && HandOverShape(m, n) && n.gate.value.failedAt == failedAt
            && (if StartsOver(s, t) then Latched(n.conds, CloneCompleted, SnapshotLost)
               else SameCond(m, n, CloneCompleted))
  {
    var m1 := if StartsOver(s, t) then SetCond(m, CloneCompleted, CondFalse, SnapshotLost) else m;
    SetHoldShape(s, m1.(gate := Some(RetryGate(m.attempts, failedAt, Undecided, t.cloneDone))), GateProbing);
  }

  lemma HandOverRule(w: World, o: Obs, m: Status, n: Status, t: Tail)
    requires WorkerReady(w, m, JobState.Failed) && TailOf(o, t) && HandOverShape(m, n)
    requires n.gate.value.failedAt == RecordedWorker(w).value.finishedAt
    requires if StartsOver(w.spec, t) then Latched(n.conds, CloneCompleted, SnapshotLost)
             else SameCond(m, n, CloneCompleted)
    requires TerminalCause(t).Some? ==> StartsOver(w.spec, t)
    ensures PatchRule(w, o, n, false)
  {
    RecordedFacts(w, m, JobState.Failed);
    assert HandsOver(w, n);
  }

  lemma HandOverInv(w: World, m: Status, n: Status)
    requires WorkerReady(w, m, JobState.Failed) && HandOverShape(m, n)
    requires SameCond(m, n, CloneCompleted) || Latched(n.conds, CloneCompleted, SnapshotLost)
    ensures Inv(w.(status := n))
  {
    RecordedFacts(w, m, JobState.Failed);
    FailureKeepsBook(w, n);
  }

  lemma FailedStatusPatch(p: WriteRule, w: World, o: Obs, m: Status, t: Tail)
    requires Covers(p, o) && WorkerReady(w, m, JobState.Failed) && TailOf(o, t)
    ensures Every(p, w, [Patch(FailedStatus(w.spec, m, RecordedWorker(w).value.finishedAt, t), false)])
  {
    var failedAt := RecordedWorker(w).value.finishedAt;
    if TerminalCause(t).Some? && !StartsOver(w.spec, t) {
      TerminalPatch(p, w, o, m, TerminalCause(t).value);
    } else {
      var n := HandedToGate(w.spec, m, failedAt, t);
      HandOverLeaves(w.spec, m, failedAt, t);
      HandOverRule(w, o, m, n, t);
      HandOverInv(w, m, n);
      LawfulOne(p, w, o, Patch(n, false));
    }
  }

  /** A pass whose working copy differs by the canceled rehearsal only. */
  lemma CancelReady(w: World, m: Status, o: Obs, s: JobState)
    requires WorkerReady(w, m, s) && !s.Running? && Inv(ApplyAll(w, CancelRehearsal(w, m, o, NoFault).ws))
    ensures WorkerReady(ApplyAll(w, CancelRehearsal(w, m, o, NoFault).ws), CancelRehearsal(w, m, o, NoFault).m, s)
    ensures RecordedWorker(ApplyAll(w, CancelRehearsal(w, m, o, NoFault).ws)) == RecordedWorker(w)
    ensures ApplyAll(w, CancelRehearsal(w, m, o, NoFault).ws).spec == w.spec
  {
    CancelShape(w, m, o, NoFault);
  }

  lemma HandleFailedRules(p: WriteRule, w: World, o: Obs, m: Status)
    requires Covers(p, o) && WorkerReady(w, m, JobState.Failed)
    ensures Every(p, w, HandleFailedJob(w, m, o, RecordedWorker(w).value))
  {
    var j := RecordedWorker(w).value;
    var c := CancelRehearsal(w, m, o, NoFault);
    var v := ApplyAll(w, c.ws);
    CancelShape(w, m, o, NoFault);
    DeletesLawful(p, w, o, c.ws);
    CancelReady(w, m, o, JobState.Failed);
    match FailedTail(w, o, j)
    case None =>
    case Some(t) =>
      FailedStatusPatch(p, v, o, c.m, t);
      EveryConcat(p, w, c.ws, [Patch(FailedStatus(w.spec, c.m, j.finishedAt, t), false)]);
  }
}
