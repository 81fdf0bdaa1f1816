/** What a write may be, given the world it lands on and what its pass read. The rules are stated
    without the pass: PassRules.dfy proves that every write of every pass obeys them. */
module Rules {
  import opened Text
  import opened Conditions
  import opened Samples
  import opened Cluster
  import opened Passes
  import opened Runs
  import opened Invariant
  import GateLog
  import Sentinel

  // ------------------------------------------------------------------ reading the world

  function RecordedWorker(v: World): Option<Job> {
    if v.status.jobName.Some? then JobAt(v, Worker(v.status.jobName.value)) else None
  }

  predicate WorkerIs(v: World, s: JobState) {
    RecordedWorker(v).Some? && RecordedWorker(v).value.state == s
  }

  predicate JobIs(v: World, k: JobKey, s: JobState) {
    k in v.jobs && v.jobs[k].state == s
  }

  /** The Migration is neither deleted, finished, suspended nor refused. */
  predicate Live(v: World) {
    !v.deleting && !v.gone && !Terminal(v.status) && !v.spec.suspend && ValidSpec(v.spec) &&
    (v.spec.follow ==> v.finalizer)
  }

  /** The pass reads the stream and the base copy is done: it may act on the lag. */
  predicate Acting(v: World, o: Obs) {
    Live(v) && v.spec.follow && WorkerIs(v, Running) && o.sentinel.Some? && ObserveCopy(v.spec, v.status, o).1
  }

  /** The lag an acting pass reads off is at or below the threshold. */
  predicate NowBelow(v: World, o: Obs)
    requires o.sentinel.Some?
  {
    Below(v.spec, CarryForward(o.sentinel.value, v.status.repl))
  }

  predicate CleanupOver(v: World, o: Obs) {
    if JobKey.Cleanup in v.jobs then !v.jobs[JobKey.Cleanup].state.Running? else o.nsTerminating
  }

  // ------------------------------------------------------------------ creating a Job

  /** Every check of a probe that completed within the last minute passed, on the inputs of now,
      while no pod of the failed attempt or of a rehearsal was left. */
  ghost predicate GateCleared(v: World, o: Obs, n: nat)
    requires n >= 1
  {
    var inputs := GateInputsFor(v.spec, v.status);
    && !HasPod(v, Worker(n - 1)) && !RehearsalPod(v)
    && JobIs(v, JobKey.Gate(n), Succeeded)
    && v.clock <= v.jobs[JobKey.Gate(n)].finishedAt + GATE_PASS_FRESHNESS
    && InputsOf(v.jobs[JobKey.Gate(n)]) == inputs
    && o.gateReadable && GateLog.Passed(GateLog.Parse(v.jobs[JobKey.Gate(n)].log), inputs)
  }

  ghost predicate WorkerRule(v: World, o: Obs, n: nat, j: Job) {
    && Live(v) && n == v.status.attempts + 1 && RecordedWorker(v).None?
    && !BudgetSpent(v.spec, v.status)
    && JobKey.Reown !in v.jobs && !CloneOnlyDone(v)
    && j == NewJob(BuiltWorker(n == 1 || (SnapshotLostSeen(v.status) && v.spec.dropIfExists)))
    && (if n == 1 then JobIs(v, JobKey.Preflight, Succeeded)
        else GateCleared(v, o, n) && (v.status.gate.Some? ==> !v.status.gate.value.verdict.Undecided?))
  }

  ghost predicate ProbeRule(v: World, n: nat, j: Job) {
    && Live(v) && n == v.status.attempts + 1 && n >= 2 && RecordedWorker(v).None?
    && !HasPod(v, Worker(n - 1)) && !RehearsalPod(v)
    && j == NewJob(BuiltGate(GateInputsFor(v.spec, v.status)))
  }

  predicate RehearsalRule(v: World, n: nat) {
    Live(v) && v.spec.follow && WorkerIs(v, Running) && v.spec.rehearsal && !v.spec.automatic &&
    !Armed(v.status) && n == OpenRun(v.status)
  }

  ghost predicate VerifyRule(v: World) {
    Live(v) && v.spec.follow && v.hist.exited && (RehearsalPod(v) ==> True(v.status, CutoverCompleted))
  }

  /** The drain of a live migration is proven. */
  predicate Drained(v: World) {
    v.spec.follow ==> JobIs(v, JobKey.Verify, Succeeded)
  }

  /** A requested handover is complete. */
  predicate HandedOver(v: World) {
    v.spec.reown ==> JobIs(v, JobKey.Reown, Succeeded)
  }

  ghost predicate ReownRule(v: World) {
    Live(v) && v.spec.reown && Settled(v) && Drained(v)
  }

  predicate CleanupRule(v: World) {
    v.deleting || (Live(v) && v.spec.follow && v.hist.exited && Drained(v) && HandedOver(v))
  }

  /** Compares run last, the schema's before the data's. */
  predicate CompareRule(v: World, o: Obs, c: Check) {
    && Live(v) && v.hist.exited && c in EnabledChecks(v.spec)
    && Drained(v) && HandedOver(v) && (v.spec.follow ==> CleanupOver(v, o))
    && (c.Data? && v.spec.verifySchema ==> Compare(Schema) in v.jobs && !v.jobs[Compare(Schema)].state.Running?)
  }

  ghost predicate CreateRule(v: World, o: Obs, k: JobKey, j: Job) {
    match k
    case Worker(n) => WorkerRule(v, o, n, j)
    case Gate(n) => ProbeRule(v, n, j)
    case Rehearsal(n) => RehearsalRule(v, n) && j == NewJob(BuiltOther)
    case Preflight => Live(v) && v.status.attempts == 0
    case Catalog => Live(v) && !v.spec.follow && v.hist.exited && !True(v.status, CloneCompleted)
    case Verify => VerifyRule(v)
    case Reown => ReownRule(v)
    case Cleanup => CleanupRule(v)
    case Compare(c) => CompareRule(v, o, c)
  }

  /** Workers go only for a suspend or a deletion; a rehearsal Job outlives its pod; verify, cleanup
      and compare Jobs are never deleted. */
  predicate DeleteRule(v: World, k: JobKey, p: Policy) {
    match k
    case Worker(n) => p.Foreground? && v.status.jobName == Some(n) && (v.deleting || v.spec.suspend)
    case Rehearsal(_) => p.Foreground?
    case Reown => p.Foreground? && v.spec.suspend && JobIs(v, JobKey.Reown, Running)
    case Preflight => v.spec.suspend && v.status.attempts == 0
    case Gate(_) => p.Background?
    case _ => false
  }

  // ------------------------------------------------------------------ patching the status

  predicate SameCond(m: Status, n: Status, t: CondType) {
    (t in m.conds <==> t in n.conds) && (t in m.conds ==> m.conds[t] == n.conds[t])
  }

  /** The worker of the next attempt becomes the recorded one. */
  predicate Records(v: World, n: Status) {
    && n.attempts == v.status.attempts + 1 && n.jobName == Some(n.attempts)
    && Worker(n.attempts) in v.jobs && n.gate.None? && n.exempt == v.status.exempt
  }

  /** A failed worker hands over to the retry gate. */
  predicate HandsOver(v: World, n: Status) {
    && WorkerIs(v, JobState.Failed) && v.status.gate.None? && n.jobName.None?
    && n.gate.Some? && n.gate.value.verdict.Undecided?
    && n.gate.value.failedAttempt == v.status.attempts
    && n.gate.value.failedAt == RecordedWorker(v).value.finishedAt
  }

  predicate AttemptRule(v: World, n: Status) {
    Records(v, n) ||
    (n.attempts == v.status.attempts &&
     (n.jobName == v.status.jobName || (n.jobName.None? && (v.spec.suspend || HandsOver(v, n)))))
  }

  /** What the finished probe of the next attempt saw in the target's session census. */
  function CensusRead(v: World, o: Obs): Option<GateLog.Census> {
    var k := JobKey.Gate(v.status.attempts + 1);
    if k in v.jobs && !v.jobs[k].state.Running? then ProbeResult(o, v.jobs[k]).census else None
  }

  /** A wait of pgcopydb's own that began 30 s or more before the failure: it outlived the worker. */
  predicate Outlived(v: World, o: Obs)
    requires v.status.gate.Some?
  {
    CensusRead(v, o).Some? &&
    var c := CensusRead(v, o).value;
    c.named && c.syncRep > 0 && 0 < c.syncRepSince <= v.status.gate.value.failedAt - SYNC_REP_THRESHOLD
  }

  /** A verdict is given once, under the lock, and refunds the attempt exactly when it is Exempt. */
  ghost predicate GivesVerdict(v: World, o: Obs, n: Status, locked: bool) {
    && locked && v.status.gate.Some? && v.status.gate.value.verdict.Undecided? && n.gate.Some?
    && n.gate == Some(v.status.gate.value.(verdict := n.gate.value.verdict))
    && (if n.gate.value.verdict.Exempt?
        then n.exempt == v.status.exempt + 1 && Outlived(v, o)
        else
          && n.exempt == v.status.exempt
          && n.gate.value.verdict.Counted?
          && (VerdictOverdue(v.status, v.clock) || (CensusRead(v, o).Some? && !Outlived(v, o)) ||
              GateCleared(v, o, v.status.attempts + 1)))
  }

  ghost predicate GateRule(v: World, o: Obs, n: Status, locked: bool) {
    || (n.gate == v.status.gate && n.exempt == v.status.exempt)
    || Records(v, n)
    || (HandsOver(v, n) && n.exempt == v.status.exempt)
    || GivesVerdict(v, o, n, locked)
  }

  /** A recorded endpos stays; a new one is the answer to this pass's own request. */
  predicate EndposRule(v: World, o: Obs, n: Status) {
    if EndposHeld(v.status) then n.repl.Some? && n.repl.value.endpos == v.status.repl.value.endpos
    else EndposHeld(n) ==> CutoverRule(v, o) && o.endposAnswer == Some(n.repl.value.endpos)
  }

  /** The cutover: after the base copy, with the lag below the threshold now and in the acting pass
      before, and with approval unless it is automatic. It is asked for only while none is held. */
  predicate CutoverRule(v: World, o: Obs) {
    Acting(v, o) && !EndposHeld(v.status) && LagSeenBelow(v.status) && NowBelow(v, o) &&
    (v.spec.automatic || v.spec.approved)
  }

  /** The latch is exactly this acting pass's measurement, and no other pass touches it. */
  predicate LatchRule(v: World, o: Obs, n: Status) {
    if Acting(v, o) then LagSeenBelow(n) == NowBelow(v, o) else SameCond(v.status, n, CaughtUp)
  }

  function Results(v: World, cs: seq<Check>): (r: seq<CheckResult>)
    requires forall c :: c in cs ==> Compare(c) in v.jobs
    ensures |r| == |cs|
  {
    seq(|cs|, i requires 0 <= i < |cs| => CheckResult(cs[i], v.jobs[Compare(cs[i])].state.Succeeded?))
  }

  /** Every requested compare finished, and the status says how. */
  predicate Compared(v: World, n: Status) {
    var cs := EnabledChecks(v.spec);
    && (forall c :: c in cs ==> Compare(c) in v.jobs && !v.jobs[Compare(c)].state.Running?)
    && (cs != [] ==> n.verification == Results(v, cs))
    && (cs != [] ==> (True(n, Verified) <==> forall c :: c in cs ==> JobIs(v, Compare(c), Succeeded)))
  }

  ghost predicate CompletesRule(v: World, o: Obs, n: Status) {
    && Live(v)
    && (if v.spec.dryRun then v.status.attempts == 0 && JobIs(v, JobKey.Preflight, Succeeded)
        else
          && v.hist.exited && Settled(v) && Drained(v) && HandedOver(v) && Compared(v, n)
          && (v.spec.follow ==> CleanupOver(v, o)))
  }

  /** Which observation each terminal failure stands for. */
  predicate FailsRule(v: World, n: Status) {
    && !v.deleting && !v.gone && !v.spec.suspend && n.phase == Phase.Failed && CondType.Failed in n.conds
    && match n.conds[CondType.Failed].reason
       case BackoffLimitExceeded => BudgetSpent(v.spec, n) && (n.gate.Some? ==> !n.gate.value.verdict.Undecided?)
       case InvalidSpec => !ValidSpec(v.spec)
       case PreflightFailed => JobIs(v, JobKey.Preflight, JobState.Failed)
       case DrainIncomplete => JobIs(v, JobKey.Verify, JobState.Failed)
       case OwnershipFailed => JobIs(v, JobKey.Reown, JobState.Failed)
       case CloneIncomplete => Catalog in v.jobs && !v.jobs[Catalog].state.Running?
       case PermissionDenied => WorkerIs(v, JobState.Failed)
       case DiskFull => WorkerIs(v, JobState.Failed)
       case SchemaDrift => WorkerIs(v, JobState.Failed)
       case SnapshotLost => WorkerIs(v, JobState.Failed) && !v.spec.dropIfExists
       case _ => false
  }

  /** Terminal conditions are absorbing, and each is reached in one way. */
  ghost predicate OutcomeRule(v: World, o: Obs, n: Status) {
    && (if True(v.status, Complete) then True(n, Complete) else True(n, Complete) ==> CompletesRule(v, o, n))
    && (if True(v.status, CondType.Failed) then True(n, CondType.Failed)
        else True(n, CondType.Failed) ==> FailsRule(v, n))
  }

  /** The pass's own sample owes no table. */
  predicate OwesNone(s: Sampled) {
    s.sample.Some? && s.sample.value.counts.Some? &&
    s.sample.value.counts.value.done >= s.sample.value.counts.value.total
  }

  ghost predicate CopyRule(v: World, o: Obs, n: Status) {
    var m := v.status;
    && (CloneOnlyDone(v) ==> True(n, CloneCompleted))
    && (!v.spec.follow && !True(m, CloneCompleted) && True(n, CloneCompleted) ==> Settled(v))
    && (v.spec.follow && !True(m, CloneCompleted) && True(n, CloneCompleted) ==>
          (WorkerIs(v, Running) && Judges(v.spec, m, o)) || Settled(v))
    && (v.spec.follow && TablesEmptySeen(m) ==>
          || TablesEmptySeen(n) || n.attempts == m.attempts + 1
          || True(n, CondType.Failed) || (SnapshotLostSeen(n) && HandsOver(v, n))
          || (True(n, CloneCompleted) && WorkerIs(v, Running) && OwesNone(o.now)))
  }

  /** The start-over latch: set by a failed worker's log, consumed by the next record. */
  predicate StartOverRule(v: World, o: Obs, n: Status) {
    var m := v.status;
    && (SnapshotLostSeen(m) ==> SnapshotLostSeen(n) || Records(v, n) || True(n, CondType.Failed))
    && (SnapshotLostSeen(n) && !SnapshotLostSeen(m) ==> HandsOver(v, n) && v.spec.dropIfExists)
    && (HandsOver(v, n) ==> (SnapshotLostSeen(n) <==> SnapshotFound(o)))
    && (Records(v, n) ==> !SnapshotLostSeen(n))
  }

  /** The failed worker's log names a lost snapshot and no cause that outranks it. */
  predicate SnapshotFound(o: Obs) {
    o.failLog.Readable? && TerminalCause(o.failLog.found) == Some(SnapshotLost)
  }

  /** CommitsBlocked rises only on a confirmed wait, and a lost sample never lowers it. */
  predicate BlockedRule(v: World, o: Obs, n: Status) {
    var m := v.status;
    var got := PassSample(v.spec, m, o);
    && (!True(m, CommitsBlocked) && True(n, CommitsBlocked) ==>
          WorkerIs(v, Running) && got.confirmed && WaitOf(got.sample).Some?)
    && (True(m, CommitsBlocked) && !True(n, CommitsBlocked) ==>
          WorkerIs(v, Succeeded) ||
          (WorkerIs(v, Running) && !got.confirmed && WaitOf(got.sample).Some? && !SyncRepOver(WaitOf(got.sample))))
  }

  /** Rehearsals start one at a time, and re-arm only with none requested and no pod left. */
  ghost predicate RunRule(v: World, n: Status) {
    var m := v.status;
    && (if !Armed(m) && Armed(n)
        then LastRun(n) == LastRun(m) + 1 && JobKey.Rehearsal(LastRun(n)) in v.jobs && v.spec.rehearsal &&
        !v.spec.automatic
        else LastRun(n) == LastRun(m))
    && (Armed(m) && !Armed(n) ==> !v.spec.rehearsal && !RehearsalPod(v))
  }

  ghost predicate PatchRule(v: World, o: Obs, n: Status, locked: bool) {
    && !v.deleting && !v.gone
    && AttemptRule(v, n) && GateRule(v, o, n, locked) && EndposRule(v, o, n) && LatchRule(v, o, n)
    && OutcomeRule(v, o, n) && CopyRule(v, o, n) && StartOverRule(v, o, n) && BlockedRule(v, o, n)
    && RunRule(v, n)
  }

  // ------------------------------------------------------------------ every write

  ghost predicate Allowed(v: World, o: Obs, x: Write) {
    match x
    case Patch(n, locked) => PatchRule(v, o, n, locked)
    case CreateJob(k, j) => CreateRule(v, o, k, j)
    case DeleteJob(k, p) => DeleteRule(v, k, p)
    case SetEndpos => CutoverRule(v, o)
    case AddFinalizer => v.spec.follow && !v.deleting
    case RemoveFinalizer => v.deleting && (v.status.attempts == 0 || CleanupOver(v, o))
  }

  /** The write is allowed where it lands, and the invariant holds before and after it. */
  ghost predicate Lawful(v: World, o: Obs, x: Write) {
    Inv(v) && Allowed(v, o, x) && Inv(Apply(v, x))
  }

  /** p holds of every lawful write: the proofs about passes never look further into the rules. */
  ghost predicate Covers(p: (World, Write) -> bool, o: Obs) {
    forall v, x {:trigger Lawful(v, o, x)} :: Lawful(v, o, x) ==> p(v, x)
  }
}
