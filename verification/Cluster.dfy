/** What the API server holds for one Migration: its spec and status, its Jobs and their unended
    pods, and a clock; and the writes by which a pass or the outside world changes it. */
module Cluster {
  import opened Text
  import opened Conditions
  import GateLog
  import Sentinel

  datatype Phase =
    | NoPhase | Pending | Validating | Cloning | Finalizing | Streaming | CutoverPending | CuttingOver
    | Verifying | Completed | Failed | Suspended

  // ------------------------------------------------------------------ spec

  /** The fields the reconciler branches on. The last row is immutable; conn says whether the
      connections and options outside this model materialize. */
  datatype Spec = Spec(
    suspend: bool, approved: bool, automatic: bool, rehearsal: bool, dropIfExists: bool,
    backoffLimit: nat, syncLocal: bool, verifySchema: bool, verifyData: bool,
    follow: bool, dryRun: bool, reown: bool, allDatabases: bool, maxLag: int, conn: bool)

  /** buildJob's checks. */
  predicate ValidSpec(s: Spec) {
    s.conn && (s.allDatabases ==> !s.dropIfExists && !s.follow && !s.verifyData)
  }

  predicate SameImmutable(s: Spec, t: Spec) {
    s.follow == t.follow && s.dryRun == t.dryRun && s.reown == t.reown &&
    s.allDatabases == t.allDatabases && s.maxLag == t.maxLag
  }

  // ------------------------------------------------------------------ status

  datatype Verdict = Undecided | Exempt | Counted

  datatype RetryGate = RetryGate(failedAttempt: nat, failedAt: int, verdict: Verdict, cloneDoneSeen: bool)

  datatype RunOutcome = Unset | InProgress | Finished | Canceled | Broken

  /** status.verificationRehearsal; job is the run its jobName names. */
  datatype Rehearsal = RehearsalStatus(armed: bool, run: nat, job: Option<nat>, outcome: RunOutcome)

  datatype Check = Schema | Data
  datatype CheckResult = CheckResult(check: Check, passed: bool)

  /** jobName is the attempt whose Job it names. */
  datatype Status = Status(
    phase: Phase, conds: Conds, attempts: nat, exempt: nat, jobName: Option<nat>,
    gate: Option<RetryGate>, repl: Option<Sentinel.Replication>, rehearsal: Option<Rehearsal>,
    verification: seq<CheckResult>, started: bool, completed: bool)

  const EMPTY_STATUS := Status(NoPhase, map[], 0, 0, None, None, None, None, [], false, false)

  function SetCond(m: Status, t: CondType, s: CondStatus, r: Reason): Status {
    m.(conds := m.conds[t := Condition(s, r)])
  }

  // ------------------------------------------------------------------ Jobs and pods

  datatype JobKey =
    | Worker(n: nat) | Gate(n: nat) | Rehearsal(n: nat)
    | Preflight | Catalog | Verify | Reown | Cleanup | Compare(check: Check)

  datatype JobState = Running | Succeeded | Failed

  /** What the reconciler decided when it built the Job. */
  datatype Built = BuiltWorker(restart: bool) | BuiltGate(inputs: GateLog.Inputs) | BuiltOther

  /** pod is the one the Job controller started for it. */
  datatype Job = Job(state: JobState, deleting: bool, pod: Option<nat>, finishedAt: int, built: Built, log: string)

  function NewJob(b: Built): Job { Job(Running, false, None, 0, b, "") }

  // ------------------------------------------------------------------ the world

  /** What has happened so far, for statements about whole runs: a worker exited 0; backoffLimit was
      never lowered. */
  datatype History = History(exited: bool, limitKept: bool)

  /** pods holds the pods that have not ended, by uid, with the Job each belongs to. */
  datatype World = World(
    spec: Spec, status: Status, finalizer: bool, deleting: bool, gone: bool,
    jobs: map<JobKey, Job>, pods: map<nat, JobKey>, nextPod: nat, clock: int, hist: History)

  predicate HasPod(w: World, k: JobKey) {
    exists u :: u in w.pods && w.pods[u] == k
  }

  predicate RehearsalPod(w: World) {
    exists u :: u in w.pods && w.pods[u].Rehearsal?
  }

  function JobAt(w: World, k: JobKey): Option<Job> {
    if k in w.jobs then Some(w.jobs[k]) else None
  }

  // ------------------------------------------------------------------ writes

  datatype Policy = Foreground | Background

  datatype Write =
    | Patch(status: Status, locked: bool)
    | CreateJob(key: JobKey, job: Job)
    | DeleteJob(key: JobKey, policy: Policy)
    | SetEndpos
    | AddFinalizer
    | RemoveFinalizer

  /** The effect of one landed write. A create of an existing name and a delete of a missing one
      change nothing; a foreground delete keeps the Job until its pods are gone. */
  function Apply(w: World, x: Write): World {
    match x
    case Patch(s, _) => w.(status := s)
    case CreateJob(k, j) => if k in w.jobs then w else w.(jobs := w.jobs[k := j])
    case DeleteJob(k, p) =>
      if k !in w.jobs then w
      else if p.Foreground? then w.(jobs := w.jobs[k := w.jobs[k].(deleting := true)])
      else w.(jobs := w.jobs - {k})
    case SetEndpos => w
    case AddFinalizer => w.(finalizer := true)
    case RemoveFinalizer => w.(finalizer := false, gone := w.gone || w.deleting)
  }

  function ApplyAll(w: World, xs: seq<Write>): World
    decreases |xs|
  {
    if xs == [] then w else ApplyAll(Apply(w, xs[0]), xs[1..])
  }

  lemma {:induction false} ApplyAllConcat(w: World, a: seq<Write>, b: seq<Write>)
    ensures ApplyAll(w, a + b) == ApplyAll(ApplyAll(w, a), b)
    decreases |a|
  {
    if a == [] {
      assert a + b == b;
    } else {
      ApplyAllConcat(Apply(w, a[0]), a[1..], b);
      assert (a + b)[1..] == a[1..] + b;
    }
  }

  lemma ApplyOne(w: World, x: Write)
    ensures ApplyAll(w, [x]) == Apply(w, x)
  {
    assert [x][1..] == [];
  }

  /** No write touches the pods, the clock or the spec. */
  lemma {:induction false} WritesKeepWorld(w: World, ws: seq<Write>)
    ensures var v := ApplyAll(w, ws); v.pods == w.pods && v.clock == w.clock && v.spec == w.spec
    decreases |ws|
  {
    if ws != [] {
      WritesKeepWorld(Apply(w, ws[0]), ws[1..]);
    }
  }

  // ------------------------------------------------------------------ properties of every write

  /** Every write has the property where it lands. */
  ghost predicate Every(p: (World, Write) -> bool, w: World, ws: seq<Write>)
    decreases |ws|
  {
    ws == [] || (p(w, ws[0]) && Every(p, Apply(w, ws[0]), ws[1..]))
  }

  lemma {:induction false} EveryConcat(p: (World, Write) -> bool, w: World, a: seq<Write>, b: seq<Write>)
    requires Every(p, w, a) && Every(p, ApplyAll(w, a), b)
    ensures Every(p, w, a + b)
    decreases |a|
  {
    if a == [] {
      assert a + b == b;
    } else {
      EveryConcat(p, Apply(w, a[0]), a[1..], b);
      assert (a + b)[1..] == a[1..] + b;
    }
  }

  lemma EveryOne(p: (World, Write) -> bool, w: World, x: Write)
    requires p(w, x)
    ensures Every(p, w, [x])
  {
    assert Every(p, Apply(w, x), [x][1..]);
  }
}
