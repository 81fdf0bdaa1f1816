/** One reconcile pass as a function of what it reads: the writes it lands, in order, when nothing
    stops it. A pass that crashes lands a prefix of them. Each function carries the name of the Go
    function it specifies; Controller.dfy runs the same steps in place and is proved equal. */
module Passes {
  import opened Text
  import opened Conditions
  import opened Samples
  import opened Cluster
  import GateLog
  import Sentinel

  const RETRY_GATE_INTERVAL := 30
  const GATE_PASS_FRESHNESS := 60
  const VERDICT_DEADLINE := 900
  const FAILED_LOG_GRACE := 120

  /** A read of a pod log: no reader is wired, the read failed, or what was found in the text. */
  datatype LogRead<+T> = NoReader | Unreadable | Readable(found: T)

  /** What log classification finds in a failed worker's log tail. */
  datatype Tail = Tail(permission: bool, disk: bool, schema: bool, snapshot: bool, cloneDone: bool)

  /** Where an API call of the rehearsal step fails, if one does; that step alone swallows errors. */
  datatype Fault = NoFault | AtGet | AtDelete | AtList | AtStray(i: nat) | AtPods | AtEnsure | AtRead

  /** What one pass reads beside the world: the order in which the API server lists Jobs and pods,
      logs, samples and the results of the commands it runs. */
  datatype Obs = Obs(
    jobList: seq<JobKey>, podList: seq<nat>, fault: Fault,
    preflightLog: LogRead<()>, failLog: LogRead<Tail>, markerLogged: bool,
    latest: Sampled, now: Sampled, sentinel: Option<Sentinel.State>, endposAnswer: Option<string>,
    gateReadable: bool, probeStuck: bool,
    catalogGate: bool, catalogOwed: Option<int>, compareUnreadable: bool, nsTerminating: bool)

  /** A list names every object once, and a sample never carries an endpos. */
  ghost predicate ValidObs(w: World, o: Obs) {
    && (forall k :: k in o.jobList <==> k in w.jobs)
    && (forall i, j :: 0 <= i < j < |o.jobList| ==> o.jobList[i] != o.jobList[j])
    && (forall u :: u in o.podList <==> u in w.pods)
    && (o.sentinel.Some? ==> o.sentinel.value.endpos == "")
  }

  // ------------------------------------------------------------------ reading the status

  predicate True(m: Status, t: CondType) { IsTrue(m.conds, t) }

  predicate CopySeen(m: Status) { Latched(m.conds, CloneCompleted, CopyingData) }
  predicate TablesEmptySeen(m: Status) { Latched(m.conds, CloneCompleted, TablesEmptyOnTarget) }
  predicate SnapshotLostSeen(m: Status) { Latched(m.conds, CloneCompleted, SnapshotLost) }

  /** An earlier pass already measured the lag below the threshold. */
  predicate LagSeenBelow(m: Status) {
    CaughtUp in m.conds && (m.conds[CaughtUp].status.CondTrue? || m.conds[CaughtUp].reason == ConfirmingCatchUp)
  }

  predicate EndposHeld(m: Status) {
    m.repl.Some? && Sentinel.LSNSet(m.repl.value.endpos)
  }

  function AttemptPhase(m: Status): Phase {
    if EndposHeld(m) || True(m, CutoverCompleted) then Phase.CuttingOver
    else if True(m, CondType.Streaming) then Phase.Streaming
    else Phase.Cloning
  }

  predicate Terminal(m: Status) { True(m, Complete) || True(m, CondType.Failed) }

  predicate OnFailurePath(m: Status) {
    m.gate.Some? && m.gate.value.failedAttempt == m.attempts
  }

  predicate BudgetSpent(s: Spec, m: Status) {
    m.attempts - m.exempt >= s.backoffLimit + 1
  }

  predicate VerdictOverdue(m: Status, now: int) {
    m.gate.Some? && m.gate.value.verdict.Undecided? && now >= m.gate.value.failedAt + VERDICT_DEADLINE
  }

  /** Exempt only for a named SyncRep wait that began the threshold or more before the failure. */
  function ExemptionVerdict(c: GateLog.Census, failedAt: int): Verdict {
    if c.named && c.syncRep > 0 && c.syncRepSince > 0 && c.syncRepSince <= failedAt - SYNC_REP_THRESHOLD
    then Exempt else Counted
  }

  predicate CopyDoneForGate(m: Status) {
    True(m, CloneCompleted) || TablesEmptySeen(m) || AttemptPhase(m) != Phase.Cloning ||
    (m.gate.Some? && m.gate.value.cloneDoneSeen)
  }

  function GateInputsFor(s: Spec, m: Status): GateLog.Inputs {
    GateLog.Inputs(!s.syncLocal || CopyDoneForGate(m), s.syncLocal)
  }

  // ------------------------------------------------------------------ holds and failures

  function SetHold(s: Spec, m: Status, r: Reason): Status {
    var m1 := SetCond(m, RetryHeld, CondTrue, r);
    if m1.phase == Phase.Suspended && !s.suspend then m1.(phase := AttemptPhase(m1)) else m1
  }

  /** A reason an earlier probe gave stands while the next one is pending. */
  function Probing(s: Spec, m: Status): Status {
    if True(m, RetryHeld) && m.conds[RetryHeld].reason !in {GateProbing, WorkerPodRemains}
    then SetHold(s, m, m.conds[RetryHeld].reason)
    else SetHold(s, m, GateProbing)
  }

  function EndHold(m: Status, r: Reason): Status {
    if True(m, RetryHeld) then SetCond(m, RetryHeld, CondFalse, r) else m
  }

  function Fail(m: Status, r: Reason): Status {
    EndHold(SetCond(m.(phase := Phase.Failed), CondType.Failed, CondTrue, r), HoldMigrationFailed)
  }

  function FailBudget(m: Status): Status {
    Fail(if m.gate.Some? then SetCond(m, CloneCompleted, CondFalse, CloneFailed) else m, BackoffLimitExceeded)
  }

  // ------------------------------------------------------------------ the rehearsal

  datatype Step = Step(m: Status, ws: seq<Write>, failed: bool)

  function SetOutcome(m: Status, r: RunOutcome): Status
    requires m.rehearsal.Some?
  {
    m.(rehearsal := Some(m.rehearsal.value.(outcome := r)))
  }

  predicate RehearsalInProgress(m: Status) {
    m.rehearsal.Some? && m.rehearsal.value.outcome.InProgress?
  }

  function RecordedJob(w: World, m: Status): Option<Job>
    requires m.rehearsal.Some?
  {
    if m.rehearsal.value.job.None? then None else JobAt(w, JobKey.Rehearsal(m.rehearsal.value.job.value))
  }

  /** recordRehearsal: the outcome of a finished run. */
  function RecordRehearsal(m: Status, j: Job): Status
    requires m.rehearsal.Some?
  {
    match j.state
    case Running => m
    case Succeeded => SetOutcome(m, Finished)
    case Failed => SetOutcome(m, Broken)
  }

  function CancelRecordedRehearsal(w: World, m: Status, f: Fault): Step {
    if !RehearsalInProgress(m) then Step(m, [], false)
    else if f.AtGet? then Step(m, [], true)
    else
      match RecordedJob(w, m)
      case None => Step(SetOutcome(m, Canceled), [], false)
      case Some(j) =>
        if !j.state.Running? then Step(RecordRehearsal(m, j), [], false)
        else if j.deleting then Step(SetOutcome(m, Canceled), [], false)
        else if f.AtDelete? then Step(m, [], true)
        else
          Step(SetOutcome(m, Canceled), [DeleteJob(JobKey.Rehearsal(m.rehearsal.value.job.value), Foreground)], false)
  }

  predicate IsStray(jobs: map<JobKey, Job>, k: JobKey) {
    k.Rehearsal? && k in jobs && jobs[k].state.Running? && !jobs[k].deleting
  }

  function Strays(jobs: map<JobKey, Job>, list: seq<JobKey>): seq<JobKey> {
    if list == [] then []
    else (if IsStray(jobs, list[0]) then [list[0]] else []) + Strays(jobs, list[1..])
  }

  function Deletes(ks: seq<JobKey>, p: Policy): (r: seq<Write>)
    ensures |r| == |ks| && forall i :: 0 <= i < |r| ==> r[i] == DeleteJob(ks[i], p)
    ensures forall x :: x in r ==> x.DeleteJob? && x.key in ks && x.policy == p
  {
    seq(|ks|, i requires 0 <= i < |ks| => DeleteJob(ks[i], p))
  }

  function CancelRehearsal(w: World, m: Status, o: Obs, f: Fault): Step {
    var c := CancelRecordedRehearsal(w, m, f);
    if c.failed then c
    else if f.AtList? then Step(c.m, c.ws, true)
    else
      var strays := Strays(ApplyAll(w, c.ws).jobs, o.jobList);
      Step(c.m, c.ws + Deletes(UpTo(strays, f), Foreground), FailsAt(strays, f))
  }

  /** The delete of one of the strays fails. */
  predicate FailsAt(strays: seq<JobKey>, f: Fault) { f.AtStray? && f.i < |strays| }

  function UpTo(strays: seq<JobKey>, f: Fault): (r: seq<JobKey>)
    ensures r <= strays && forall k :: k in r ==> k in strays
  {
    if FailsAt(strays, f) then strays[..f.i] else strays
  }

  function RehearsalNotStarted(m: Status): Status {
    if m.rehearsal.None? then m.(rehearsal := Some(RehearsalStatus(false, 0, None, Unset))) else m
  }

  /** The delete of the previous run's Job. */
  function DropPrevious(m: Status, run: nat): seq<Write> {
    if m.rehearsal.Some? && m.rehearsal.value.job.Some? && m.rehearsal.value.job.value != run
    then [DeleteJob(JobKey.Rehearsal(m.rehearsal.value.job.value), Foreground)] else []
  }

  function EnsureRun(w: World, run: nat): seq<Write> {
    if JobKey.Rehearsal(run) in w.jobs then [] else [CreateJob(JobKey.Rehearsal(run), NewJob(BuiltOther))]
  }

  /** A failed delete starts no run that status cannot record. */
  function StartRehearsal(w: World, m: Status, f: Fault): Step {
    var run := if m.rehearsal.Some? then m.rehearsal.value.run + 1 else 1;
    var drop := DropPrevious(m, run);
    if drop != [] && f.AtDelete? then Step(RehearsalNotStarted(m), [], true)
    else if f.AtEnsure? then Step(RehearsalNotStarted(m), drop, true)
    else Step(m.(rehearsal := Some(RehearsalStatus(true, run, Some(run), InProgress))), drop + EnsureRun(w, run), false)
  }

  function ObserveRehearsal(w: World, m: Status, f: Fault): Status
    requires m.rehearsal.Some?
  {
    if !RehearsalInProgress(m) || f.AtGet? then m
    else
      match RecordedJob(w, m)
      case None => SetOutcome(m, Broken)
      case Some(j) => if f.AtRead? then m else RecordRehearsal(m, j)
  }

  function ReconcileRehearsal(w: World, m: Status, o: Obs): Step {
    var armed := m.rehearsal.Some? && m.rehearsal.value.armed;
    if !w.spec.rehearsal then
      if !armed then Step(m, [], false)
      else
        var c := CancelRehearsal(w, m, o, o.fault);
        if c.failed || o.fault.AtPods? || RehearsalPod(w) then c
        else Step(c.m.(rehearsal := Some(c.m.rehearsal.value.(armed := false))), c.ws, false)
    else if m.phase == Phase.CuttingOver then CancelRehearsal(w, m, o, o.fault)
    else if armed then Step(ObserveRehearsal(w, m, o.fault), [], false)
    else if m.phase != Phase.Streaming && m.phase != Phase.CutoverPending then Step(m, [], false)
    else if w.spec.automatic then Step(RehearsalNotStarted(m), [], false)
    else StartRehearsal(w, m, o.fault)
  }

  // ------------------------------------------------------------------ the running worker

  function ApplyCommitsBlocked(m: Status, got: Sampled): Status {
    if got.at == 0 then m
    else
      var blocked := True(m, CommitsBlocked);
      var wait := WaitOf(got.sample);
      if wait.None? then (if blocked then m else SetCond(m, CommitsBlocked, CondUnknown, SyncRepUnobserved))
      else if got.confirmed then SetCond(m, CommitsBlocked, CondTrue, SyncRepWait)
      else if !SyncRepOver(wait) then SetCond(m, CommitsBlocked, CondFalse, NoSyncRepWait)
      else m
  }

  function ApplyStage(m: Status, s: Sample, started: bool): Status {
    var m1 :=
      if started && IsFalse(m.conds, CloneCompleted) && !TablesEmptySeen(m)
      then SetCond(m, CloneCompleted, CondFalse, CopyingData) else m;
    if s.copying then m1.(phase := Phase.Cloning)
    else if s.finalizing && CopySeen(m1) then m1.(phase := Phase.Finalizing)
    else m1
  }

  /** Whether the worker's clone-done marker is believed. */
  function ConfirmBaseCopy(m: Status, counts: Option<Counts>): (Status, bool) {
    if counts.Some? && counts.value.done < counts.value.total
    then (SetCond(m, CloneCompleted, CondFalse, TablesEmptyOnTarget), false)
    else if counts.None? && TablesEmptySeen(m) then (m, false)
    else (SetCond(m, CloneCompleted, CondTrue, BaseCopyDone), true)
  }

  /** The replication block a sample leaves, with what it lacks carried over from prev. */
  function CarryForward(st: Sentinel.State, prev: Option<Sentinel.Replication>): Sentinel.Replication {
    var rs := Sentinel.ToStatus(st);
    if prev.None? then rs
    else
      rs.(endpos := if rs.endpos == "" then prev.value.endpos else rs.endpos,
          replayLSN := if rs.replayLSN == "" then prev.value.replayLSN else rs.replayLSN,
          lag := if rs.lag.None? then prev.value.lag else rs.lag)
  }

  predicate Below(s: Spec, rs: Sentinel.Replication) {
    rs.lag.Some? && rs.lag.value <= s.maxLag
  }

  predicate CutoverWanted(s: Spec, caughtUp: bool) {
    if s.automatic then caughtUp else s.approved && caughtUp
  }

  function SetCaughtUp(m: Status, below: bool, caughtUp: bool): Status {
    if caughtUp then SetCond(m, CaughtUp, CondTrue, LagBelowThreshold)
    else if below then SetCond(m, CaughtUp, CondFalse, ConfirmingCatchUp)
    else SetCond(m, CaughtUp, CondFalse, Lagging)
  }

  /** The status of a streaming pass, before the cutover is decided. */
  function StreamStatus(s: Spec, m: Status, rs: Sentinel.Replication): Status {
    var m1 := SetCond(m.(repl := Some(rs)), CondType.Streaming, CondTrue, Replaying).(phase := Phase.Streaming);
    SetCaughtUp(m1, Below(s, rs), Below(s, rs) && LagSeenBelow(m))
  }

  function Cutover(s: Spec, m: Status, rs: Sentinel.Replication, caughtUp: bool, answer: Option<string>): Step {
    if Sentinel.LSNSet(rs.endpos) then Step(m.(phase := Phase.CuttingOver), [], false)
    else if CutoverWanted(s, caughtUp) then
      match answer
      case None => Step(m, [SetEndpos], false)
      case Some(lsn) =>
        Step(m.(phase := Phase.CuttingOver, repl := Some(if Sentinel.LSNSet(lsn) then rs.(endpos := lsn) else rs)),
             [SetEndpos], false)
    else if caughtUp then Step(m.(phase := Phase.CutoverPending), [], false)
    else Step(m, [], false)
  }

  function ReconcileFollowRunning(s: Spec, m: Status, o: Obs, cloneDone: bool): Step {
    if o.sentinel.None? then Step(m, [], false)
    else
      var rs := CarryForward(o.sentinel.value, m.repl);
      if !cloneDone then Step(m.(repl := Some(rs)), [], false)
      else Cutover(s, StreamStatus(s, m, rs), rs, Below(s, rs) && LagSeenBelow(m), o.endposAnswer)
  }

  /** This pass checks the clone-done marker against a sample taken now. */
  predicate Judges(s: Spec, m: Status, o: Obs) {
    s.follow && !True(m, CloneCompleted) && (o.markerLogged || TablesEmptySeen(m))
  }

  function PassSample(s: Spec, m: Status, o: Obs): Sampled {
    if Judges(s, m, o) then o.now else o.latest
  }

  /** The sample's part: the SyncRep waits and the stage. */
  function ObserveSample(m: Status, got: Sampled): Status {
    var m1 := ApplyCommitsBlocked(m, got);
    if got.sample.Some? then ApplyStage(m1, got.sample.value, got.copySeen) else m1
  }

  function CountsOf(got: Sampled): Option<Counts> {
    if got.sample.Some? then got.sample.value.counts else None
  }

  /** Everything observeRunningJob learns about the base copy, and whether it is done. */
  function ObserveCopy(s: Spec, m: Status, o: Obs): (Status, bool) {
    var got := PassSample(s, m, o);
    var m1 := ObserveSample(m, got);
    if Judges(s, m, o) then ConfirmBaseCopy(m1, CountsOf(got)) else (m1, True(m, CloneCompleted))
  }

  /** The copy and the stream: everything before the rehearsal. */
  function StreamStep(s: Spec, m: Status, o: Obs): Step {
    var (m1, cloneDone) := ObserveCopy(s, m, o);
    if s.follow then ReconcileFollowRunning(s, m1, o, cloneDone) else Step(m1, [], false)
  }

  function RehearsalStep(w: World, f: Step, o: Obs): Step {
    if !w.spec.follow then f
    else
      var r := ReconcileRehearsal(w, f.m, o);
      Step(r.m, f.ws + r.ws, false)
  }

  function StrayProbes(list: seq<JobKey>): seq<JobKey> {
    if list == [] then [] else (if list[0].Gate? then [list[0]] else []) + StrayProbes(list[1..])
  }

  function ObserveRunningJob(w: World, m: Status, o: Obs): seq<Write> {
    var f := RehearsalStep(w, StreamStep(w.spec, m, o), o);
    f.ws + ([Patch(EndHold(f.m, GatePassed), false)] + Deletes(StrayProbes(o.jobList), Background))
  }

  // ------------------------------------------------------------------ a failed worker

  /** The terminal cause in a failed worker's log, in the order the causes are tried. */
  function TerminalCause(t: Tail): Option<Reason> {
    if t.permission then Some(PermissionDenied)
    else if t.disk then Some(DiskFull)
    else if t.schema then Some(SchemaDrift)
    else if t.snapshot then Some(SnapshotLost)
    else None
  }

  const NO_TAIL := Tail(false, false, false, false, false)

  predicate StartsOver(s: Spec, t: Tail) {
    TerminalCause(t) == Some(SnapshotLost) && s.dropIfExists
  }

  /** The failed worker's hand-over to the retry gate. */
  function HandedToGate(s: Spec, m: Status, failedAt: int, t: Tail): Status {
    var m1 := if StartsOver(s, t) then SetCond(m, CloneCompleted, CondFalse, SnapshotLost) else m;
    var gate := Some(RetryGate(m.attempts, failedAt, Undecided, t.cloneDone));
    SetHold(s, m1.(gate := gate), GateProbing).(jobName := None)
  }

  /** The status handleFailedJob writes, given what its log read found. */
  function FailedStatus(s: Spec, m: Status, failedAt: int, t: Tail): Status {
    if TerminalCause(t).Some? && !StartsOver(s, t)
    then Fail(SetCond(m, CloneCompleted, CondFalse, CloneFailed), TerminalCause(t).value)
    else HandedToGate(s, m, failedAt, t)
  }

  /** What the log read of a failed worker found; None defers the pass. */
  function FailedTail(w: World, o: Obs, j: Job): Option<Tail> {
    match o.failLog
    case Readable(t) => Some(t)
    case NoReader => Some(NO_TAIL)
    case Unreadable => if w.clock < j.finishedAt + FAILED_LOG_GRACE then None else Some(NO_TAIL)
  }

  function HandleFailedJob(w: World, m: Status, o: Obs, j: Job): seq<Write> {
    var c := CancelRehearsal(w, m, o, NoFault);
    match FailedTail(w, o, j)
    case None => c.ws
    case Some(t) => c.ws + [Patch(FailedStatus(w.spec, c.m, j.finishedAt, t), false)]
  }

  // ------------------------------------------------------------------ the retry gate

  /** The gate clears the worker with working copy m, or holds it: then the pass ends. */
  datatype GateStep = Cleared(m: Status, ws: seq<Write>) | Held(ws: seq<Write>)

  /** decide: the verdict, and the failed Migration when it is Counted with the budget spent. */
  function Decide(s: Spec, m: Status, v: Verdict): Status
    requires m.gate.Some?
  {
    var m1 := if v.Counted? && BudgetSpent(s, m) then FailBudget(m) else m;
    m1.(gate := Some(m1.gate.value.(verdict := v)), exempt := if v.Exempt? then m1.exempt + 1 else m1.exempt)
  }

  predicate DecideFails(s: Spec, m: Status, v: Verdict) {
    v.Counted? && BudgetSpent(s, m)
  }

  /** The probe's hold: its reason, and how long the failed probe stays. */
  function HoldProbe(w: World, m: Status, o: Obs, key: JobKey, j: Job, current: bool, result: GateLog.Result)
      : seq<Write> {
    if !current then [DeleteJob(key, Background), Patch(Probing(w.spec, m), false)]
    else
      var found := GateLog.Hold(result, GateInputsFor(w.spec, m));
      var reason := if !o.gateReadable || found.None? then ProbeFailed else found.value;
      (if j.finishedAt + RETRY_GATE_INTERVAL > w.clock then [] else [DeleteJob(key, Background)]) +
      [Patch(SetHold(w.spec, m, reason), false)]
  }

  function InputsOf(j: Job): GateLog.Inputs {
    if j.built.BuiltGate? then j.built.inputs else GateLog.Inputs(false, false)
  }

  function ProbeResult(o: Obs, j: Job): GateLog.Result {
    GateLog.Parse(if o.gateReadable then j.log else "")
  }

  predicate ProbePassed(w: World, m: Status, o: Obs, j: Job) {
    j.state.Succeeded? && o.gateReadable && GateLog.Passed(ProbeResult(o, j), GateInputsFor(w.spec, m))
  }

  /** The probe still waits for its census verdict. */
  predicate Judgeable(m: Status, r: GateLog.Result) {
    OnFailurePath(m) && m.gate.value.verdict.Undecided? && r.census.Some?
  }

  /** judgeProbe, on a finished probe. */
  function JudgeProbe(w: World, m: Status, o: Obs, key: JobKey, j: Job): GateStep {
    var current := InputsOf(j) == GateInputsFor(w.spec, m);
    if j.state.Succeeded? && (!current || w.clock > j.finishedAt + GATE_PASS_FRESHNESS)
    then Held([DeleteJob(key, Background), Patch(Probing(w.spec, m), false)])
    else if ProbePassed(w, m, o, j) then Cleared(m, [])
    else
      var result := ProbeResult(o, j);
      if Judgeable(m, result) then
        var v := ExemptionVerdict(result.census.value, m.gate.value.failedAt);
        var m1 := Decide(w.spec, m, v);
        if DecideFails(w.spec, m, v) then Held([Patch(m1, true)])
        else Held([Patch(m1, true)] + HoldProbe(w, m1, o, key, j, current, result))
      else Held(HoldProbe(w, m, o, key, j, current, result))
  }

  /** retryGate, after the deadline check. */
  function ProbeGate(w: World, m: Status, o: Obs, attempt: nat): GateStep
    requires attempt >= 1
  {
    var key := JobKey.Gate(attempt);
    if HasPod(w, Worker(attempt - 1)) || RehearsalPod(w) then Held([Patch(SetHold(w.spec, m, WorkerPodRemains), false)])
    else
      match JobAt(w, key)
      case None =>
        Held([CreateJob(key, NewJob(BuiltGate(GateInputsFor(w.spec, m)))), Patch(Probing(w.spec, m), false)])
      case Some(j) =>
        if j.deleting then Held([Patch(Probing(w.spec, m), false)])
        else if j.state.Running? then
          Held([Patch(if o.probeStuck then SetHold(w.spec, m, ProbeFailed) else Probing(w.spec, m), false)])
        else JudgeProbe(w, m, o, key, j)
  }

  function Behind(ws: seq<Write>, g: GateStep): GateStep {
    match g case Cleared(m, xs) => Cleared(m, ws + xs) case Held(xs) => Held(ws + xs)
  }

  function RetryGatePass(w: World, m: Status, o: Obs, attempt: nat): GateStep
    requires attempt >= 1
  {
    if OnFailurePath(m) && VerdictOverdue(m, w.clock) then
      var m1 := Decide(w.spec, m, Counted);
      if DecideFails(w.spec, m, Counted) then Held([Patch(m1, true)])
      else Behind([Patch(m1, true)], ProbeGate(Apply(w, Patch(m1, true)), m1, o, attempt))
    else ProbeGate(w, m, o, attempt)
  }

  /** settleBudget: Counted for an undecided verdict, and the failed Migration once the budget is spent. */
  function SettleBudget(s: Spec, m: Status): Status {
    var m1 :=
      if OnFailurePath(m) && m.gate.value.verdict.Undecided?
      then m.(gate := Some(m.gate.value.(verdict := Counted))) else m;
    if BudgetSpent(s, m1) then FailBudget(m1) else m1
  }

  function RecordedStatus(m: Status): Status {
    var n := m.attempts + 1;
    var m1 := m.(started := true, attempts := n, jobName := Some(n), phase := AttemptPhase(m));
    var m2 := if True(m1, CloneCompleted) then m1 else SetCond(m1, CloneCompleted, CondFalse, CloneRunning);
    if n > 1 then SetCond(m2.(gate := None), RetryHeld, CondFalse, GatePassed) else m2
  }

  function RecordAttempt(m: Status): seq<Write> {
    [Patch(RecordedStatus(m), false)] +
    (if m.attempts >= 1 then [DeleteJob(JobKey.Gate(m.attempts + 1), Background)] else [])
  }

  /** buildJob: attempt 1 wipes the work directory, a retry resumes, and a retry after a refused
      resume starts over if dropIfExists is still set. */
  function BuildWorker(s: Spec, m: Status, attempt: nat): Job {
    NewJob(BuiltWorker(attempt == 1 || (SnapshotLostSeen(m) && s.dropIfExists)))
  }

  function CreateAndRecord(w: World, m: Status): seq<Write> {
    [CreateJob(Worker(m.attempts + 1), BuildWorker(w.spec, m, m.attempts + 1))] + RecordAttempt(m)
  }

  function StartAttempt(w: World, m: Status, o: Obs): seq<Write> {
    var n := m.attempts + 1;
    if n > 1 && Worker(n) in w.jobs then RecordAttempt(m)
    else if (!OnFailurePath(m) || !m.gate.value.verdict.Undecided?) && BudgetSpent(w.spec, m)
    then [Patch(FailBudget(m), false)]
    else if n == 1 then CreateAndRecord(w, m)
    else AfterGate(w, RetryGatePass(w, m, o, n))
  }

  /** A cleared gate settles the budget and starts the worker. */
  function AfterGate(w: World, g: GateStep): seq<Write> {
    match g
    case Held(ws) => ws
    case Cleared(m, ws) => ws + Settle(w, m)
  }

  /** The locked budget patch, and the worker unless it failed the Migration. */
  function Settle(w: World, m: Status): seq<Write> {
    var m1 := SettleBudget(w.spec, m);
    [Patch(m1, true)] + (if BudgetSpent(w.spec, m) then [] else CreateAndRecord(w, m1))
  }

  // ------------------------------------------------------------------ the finish paths

  /** Go on with the working copy m, or end the pass with these writes. */
  datatype Finish = Go(m: Status) | Stop(ws: seq<Write>)

  function ReownGate(w: World, m: Status, running: Phase): Finish {
    if !w.spec.reown then Go(m)
    else
      var waiting := SetCond(m, OwnershipApplied, CondUnknown, OwnershipRunning).(phase := running);
      match JobAt(w, JobKey.Reown)
      case None => Stop([CreateJob(JobKey.Reown, NewJob(BuiltOther)), Patch(waiting, false)])
      case Some(j) =>
        match j.state
        case Running => Stop([Patch(waiting, false)])
        case Failed =>
          var m1 := Fail(SetCond(m, OwnershipApplied, CondFalse, Reason.OwnershipFailed), Reason.OwnershipFailed);
          Stop([Patch(m1, false)])
        case Succeeded => Go(SetCond(m, OwnershipApplied, CondTrue, OwnershipDone))
  }

  function EnabledChecks(s: Spec): seq<Check> {
    (if s.verifySchema then [Schema] else []) + (if s.verifyData then [Data] else [])
  }

  /** The data compare's log could not be read, and the grace for it has not passed. */
  predicate CompareUnread(w: World, o: Obs, c: Check, j: Job) {
    c.Data? && !j.state.Running? && o.compareUnreadable && w.clock < j.finishedAt + FAILED_LOG_GRACE
  }

  function CompareLoop(w: World, m: Status, o: Obs, checks: seq<Check>): Finish
    decreases |checks|
  {
    if checks == [] then Go(m)
    else
      match JobAt(w, Compare(checks[0]))
      case None =>
        Stop([CreateJob(Compare(checks[0]), NewJob(BuiltOther)),
              Patch(SetCond(m, Verified, CondUnknown, VerificationRunning), false)])
      case Some(j) =>
        if CompareUnread(w, o, checks[0], j) then Stop([])
        else if j.state.Running? then Stop([Patch(m, false)])
        else
          var result := CheckResult(checks[0], j.state.Succeeded?);
          CompareLoop(w, m.(verification := m.verification + [result]), o, checks[1..])
  }

  /** The verdict over the finished compares; a schema mismatch outranks a data one. */
  function JudgeCompares(m: Status): Status {
    if forall r :: r in m.verification ==> r.passed then SetCond(m, Verified, CondTrue, ComparePassed)
    else if CheckResult(Schema, false) in m.verification then SetCond(m, Verified, CondFalse, SchemaMismatch)
    else SetCond(m, Verified, CondFalse, DataMismatch)
  }

  function EnsureVerification(w: World, m: Status, o: Obs): Finish {
    var checks := EnabledChecks(w.spec);
    if checks == [] then Go(m)
    else
      match CompareLoop(w, m.(phase := Phase.Verifying, verification := []), o, checks)
      case Stop(xs) => Stop(xs)
      case Go(m1) => Go(JudgeCompares(m1))
  }

  function CompletedStatus(m: Status, r: Reason): Status {
    SetCond(m.(completed := true, phase := Phase.Completed), Complete, CondTrue, r)
  }

  function FinishWith(w: World, m: Status, o: Obs): seq<Write> {
    match EnsureVerification(w, m, o)
    case Stop(xs) => xs
    case Go(m1) => [Patch(CompletedStatus(m1, MigrationSucceeded), false)]
  }

  /** finishClone's gate on pgcopydb's own catalog. */
  function CatalogGate(w: World, m: Status, o: Obs): Finish {
    if True(m, CloneCompleted) || w.spec.allDatabases || !o.catalogGate then Go(m)
    else
      match JobAt(w, Catalog)
      case None => Stop([CreateJob(Catalog, NewJob(BuiltOther)), Patch(m, false)])
      case Some(j) =>
        if j.state.Running? then Stop([Patch(m, false)])
        else if o.catalogOwed.Some? && o.catalogOwed.value > 0
        then Stop([Patch(Fail(SetCond(m, CloneCompleted, CondFalse, CloneIncomplete), CloneIncomplete), false)])
        else Go(m)
  }

  function FinishClone(w: World, m: Status, o: Obs): seq<Write> {
    match CatalogGate(w, m, o)
    case Stop(xs) => xs
    case Go(m1) =>
      match ReownGate(w, SetCond(m1, CloneCompleted, CondTrue, CloneSucceeded), Phase.Finalizing)
      case Stop(xs) => xs
      case Go(m2) => FinishWith(w, m2, o)
  }

  /** drainWaitsForRehearsal: the working copy, and whether the drain verify waits. */
  function DrainWaits(w: World, m: Status): (Status, bool) {
    var waited := CutoverCompleted in m.conds && m.conds[CutoverCompleted].reason == RehearsalPodRemains;
    if True(m, CutoverCompleted) then (m, false)
    else if RehearsalPod(w) then (SetCond(m, CutoverCompleted, CondUnknown, RehearsalPodRemains), true)
    else if waited then (m.(conds := m.conds - {CutoverCompleted}), false)
    else (m, false)
  }

  function EnsureVerify(w: World, m: Status): Finish {
    match JobAt(w, JobKey.Verify)
    case None => Stop([CreateJob(JobKey.Verify, NewJob(BuiltOther)), Patch(m, false)])
    case Some(j) =>
      match j.state
      case Running => Stop([Patch(m, false)])
      case Failed =>
        Stop([Patch(Fail(SetCond(m, CutoverCompleted, CondFalse, DrainIncomplete), DrainIncomplete), false)])
      case Succeeded => Go(m)
  }

  function EnsureCleanup(w: World, o: Obs, m: Status): Finish {
    match JobAt(w, JobKey.Cleanup)
    case None =>
      if o.nsTerminating then Go(m) else Stop([CreateJob(JobKey.Cleanup, NewJob(BuiltOther)), Patch(m, false)])
    case Some(j) => if j.state.Running? then Stop([Patch(m, false)]) else Go(m)
  }

  /** The working copy finishFollow starts from: a refused clone-done marker stays refused. */
  function DrainCopy(m: Status): Status {
    (if TablesEmptySeen(m) then m else SetCond(m, CloneCompleted, CondTrue, BaseCopyDone)).(phase := Phase.CuttingOver)
  }

  /** finishFollow behind a proven drain. */
  function AfterDrain(w: World, m: Status, o: Obs): seq<Write> {
    match ReownGate(w, m, Phase.CuttingOver)
    case Stop(xs) => xs
    case Go(m1) =>
      match EnsureCleanup(w, o, SetCond(m1, CutoverCompleted, CondTrue, DrainVerified))
      case Stop(xs) => xs
      case Go(m2) => FinishWith(w, m2, o)
  }

  /** finishFollow, once no rehearsal is left to cancel. */
  function DrainPass(w: World, m: Status, o: Obs): seq<Write> {
    var (m1, wait) := DrainWaits(w, m);
    if wait then [Patch(m1, false)]
    else
      match EnsureVerify(w, m1)
      case Stop(xs) => xs
      case Go(_) => AfterDrain(w, m1, o)
  }

  function FinishFollow(w: World, m: Status, o: Obs): seq<Write> {
    var c := CancelRehearsal(w, DrainCopy(m), o, NoFault);
    c.ws + DrainPass(ApplyAll(w, c.ws), c.m, o)
  }

  // ------------------------------------------------------------------ the pass

  function NextAttempt(w: World, m: Status, o: Obs): seq<Write> {
    var c := CancelRehearsal(w, m, o, NoFault);
    c.ws + ResumeOrStart(ApplyAll(w, c.ws), c.m, o)
  }

  function ResumeOrStart(w: World, m: Status, o: Obs): seq<Write> {
    var handover := w.spec.reown && JobKey.Reown in w.jobs;
    if !w.spec.follow && (handover || True(m, CloneCompleted)) then FinishClone(w, m, o)
    else if handover then FinishFollow(w, m, o)
    else StartAttempt(w, m, o)
  }

  function CancelledWorker(w: World, m: Status): seq<Write> {
    if m.jobName.Some? && Worker(m.jobName.value) in w.jobs
    then [DeleteJob(Worker(m.jobName.value), Foreground)] else []
  }

  predicate ReownUnfinished(w: World) {
    w.spec.reown && JobKey.Reown in w.jobs && w.jobs[JobKey.Reown].state.Running?
  }

  function SuspendedStatus(w: World, m: Status): Status {
    var m1 := m.(jobName := None);
    var m2 := if ReownUnfinished(w) then SetCond(m1, OwnershipApplied, CondUnknown, OwnershipSuspended) else m1;
    EndHold(m2, HoldSuspended).(phase := Phase.Suspended)
  }

  function ParkedPreflight(w: World, m: Status): seq<Write> {
    if m.attempts == 0 && JobKey.Preflight in w.jobs then [DeleteJob(JobKey.Preflight, Background)] else []
  }

  /** A finished handover Job stays: it is the record of the handover. */
  function ParkedReown(w: World): seq<Write> {
    if ReownUnfinished(w) then [DeleteJob(JobKey.Reown, Foreground)] else []
  }

  function SuspendWrites(w: World, m: Status): seq<Write> {
    CancelledWorker(w, m) + (ParkedPreflight(w, m) + (ParkedReown(w) +
    [DeleteJob(JobKey.Gate(m.attempts + 1), Background), Patch(SuspendedStatus(w, m), false)]))
  }

  function ReconcileSuspended(w: World, m: Status, o: Obs): seq<Write> {
    var c := CancelRehearsal(w, m, o, NoFault);
    c.ws + SuspendWrites(ApplyAll(w, c.ws), c.m)
  }

  function DeletionWrites(w: World, o: Obs): seq<Write> {
    var m := w.status;
    if !w.finalizer then []
    else if m.attempts == 0 then [RemoveFinalizer]
    else if m.jobName.Some? && Worker(m.jobName.value) in w.jobs && !w.jobs[Worker(m.jobName.value)].deleting
    then [DeleteJob(Worker(m.jobName.value), Foreground)]
    else
      match JobAt(w, JobKey.Cleanup)
      case None => if o.nsTerminating then [RemoveFinalizer] else [CreateJob(JobKey.Cleanup, NewJob(BuiltOther))]
      case Some(j) => if j.state.Running? then [] else [RemoveFinalizer]
  }

  function ReconcileDeletion(w: World, o: Obs): seq<Write> {
    var c := CancelRehearsal(w, w.status, o, NoFault);
    c.ws + DeletionWrites(ApplyAll(w, c.ws), o)
  }

  function TerminalPass(w: World, o: Obs): seq<Write> {
    if RehearsalInProgress(w.status) then
      var c := CancelRehearsal(w, w.status, o, NoFault);
      c.ws + [Patch(c.m, false)]
    else []
  }

  /** preflightGate: only the first attempt waits for it. */
  function PreflightGate(w: World, m: Status, o: Obs): Finish {
    if m.attempts != 0 then Go(m)
    else
      var waiting := SetCond(m, Validated, CondUnknown, PreflightRunning).(phase := Phase.Validating);
      match JobAt(w, JobKey.Preflight)
      case None => Stop([CreateJob(JobKey.Preflight, NewJob(BuiltOther)), Patch(waiting, false)])
      case Some(j) =>
        match j.state
        case Running => Stop([Patch(waiting, false)])
        case Succeeded => Go(m)
        case Failed =>
          if o.preflightLog.Unreadable? && w.clock < j.finishedAt + FAILED_LOG_GRACE then Stop([])
          else
            Stop([Patch(Fail(SetCond(m, Validated, CondFalse, Reason.PreflightFailed), Reason.PreflightFailed), false)])
  }

  /** The worker exited 0, so every commit it sent has returned. */
  function ClearBlocked(m: Status): Status {
    if CommitsBlocked in m.conds then SetCond(m, CommitsBlocked, CondFalse, WorkerSucceeded) else m
  }

  /** The pass of a validated Migration, from its recorded worker on. */
  function WorkerPass(w: World, m: Status, o: Obs): seq<Write> {
    if m.jobName.None? || Worker(m.jobName.value) !in w.jobs then NextAttempt(w, m, o)
    else
      var j := w.jobs[Worker(m.jobName.value)];
      match j.state
      case Running => ObserveRunningJob(w, m, o)
      case Failed => HandleFailedJob(w, m, o, j)
      case Succeeded =>
        if w.spec.follow then FinishFollow(w, ClearBlocked(m), o) else FinishClone(w, ClearBlocked(m), o)
  }

  function ActivePass(w: World, o: Obs): seq<Write> {
    match PreflightGate(w, w.status, o)
    case Stop(xs) => xs
    case Go(m) =>
      var m1 := SetCond(m, Validated, CondTrue, SpecValid);
      if w.spec.dryRun then [Patch(CompletedStatus(m1, DryRunSucceeded), false)] else WorkerPass(w, m1, o)
  }

  function Pass(w: World, o: Obs): seq<Write> {
    var m := w.status;
    if w.gone then []
    else if w.deleting then ReconcileDeletion(w, o)
    else if Terminal(m) then TerminalPass(w, o)
    else if m == EMPTY_STATUS then [Patch(m.(phase := Phase.Pending), true)]
    else if w.spec.suspend then ReconcileSuspended(w, m, o)
    else if !ValidSpec(w.spec)
    then [Patch(Fail(SetCond(m, Validated, CondFalse, Reason.InvalidSpec), Reason.InvalidSpec), false)]
    else if w.spec.follow && !w.finalizer then [AddFinalizer] + ActivePass(Apply(w, AddFinalizer), o)
    else ActivePass(w, o)
  }
}
