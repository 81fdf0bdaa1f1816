/** Where promises of the design stop: a worker that a crashed pass created without recording it, which
    a suspend or a deletion misses; and a second pod of one attempt or one rehearsal run. */
module Boundaries {
  import opened Text
  import opened Conditions
  import opened Samples
  import opened Cluster
  import opened Passes
  import opened Runs
  import opened Invariant
  import opened Rules
  import opened PassRules
  import opened Histories
  import opened Pods
  import GateLog
  import Sentinel

  // ------------------------------------------------------------------ a suspend stops the recorded worker

  /** The worker Job runs and nothing has asked it to go. */
  predicate WorkerAlive(w: World, n: nat) {
    Worker(n) in w.jobs && !Stopping(w.jobs[Worker(n)])
  }

  /** What a whole suspending pass leaves of the worker Jobs. */
  lemma SuspendedJobs(w: World, m: Status, n: nat)
    ensures var v := ApplyAll(w, SuspendWrites(w, m));
            && v.status == SuspendedStatus(w, m)
            && (WorkerAlive(v, n) <==> WorkerAlive(w, n) && m.jobName != Some(n))
  {
    var a, b, c := CancelledWorker(w, m), ParkedPreflight(w, m), ParkedReown(w);
    var d := [DeleteJob(JobKey.Gate(m.attempts + 1), Background)];
    var e := [Patch(SuspendedStatus(w, m), false)];
    var v1 := ApplyAll(w, a);
    var v2 := ApplyAll(v1, b);
    var v3 := ApplyAll(v2, c);
    ApplyAllConcat(w, a, b + (c + (d + e)));
    ApplyAllConcat(v1, b, c + (d + e));
    ApplyAllConcat(v2, c, d + e);
    ApplyAllConcat(v3, d, e);
    assert d + e == [d[0], e[0]];
    CancelledAlive(w, m, n);
    OthersAlive(v1, b, n);
    OthersAlive(v2, c, n);
    OthersAlive(v3, d, n);
    ApplyOne(ApplyAll(v3, d), e[0]);
  }

  lemma CancelledAlive(w: World, m: Status, n: nat)
    ensures WorkerAlive(ApplyAll(w, CancelledWorker(w, m)), n) <==> WorkerAlive(w, n) && m.jobName != Some(n)
  {
    if CancelledWorker(w, m) != [] {
      ApplyOne(w, CancelledWorker(w, m)[0]);
    }
  }

  lemma OthersAlive(w: World, ws: seq<Write>, n: nat)
    requires |ws| <= 1 && forall x :: x in ws ==> x.DeleteJob? && !x.key.Worker?
    ensures WorkerAlive(ApplyAll(w, ws), n) <==> WorkerAlive(w, n)
  {
    if ws != [] {
      assert ws == [ws[0]] && ws[0] in ws;
      ApplyOne(w, ws[0]);
    }
  }

  /** A pass over a suspended Migration parks it. */
  predicate Suspending(w: World) {
    !w.gone && !w.deleting && !Terminal(w.status) && w.status != EMPTY_STATUS && w.spec.suspend
  }

  /** What a whole suspending pass leaves, seen from the world it started on. */
  lemma ParkedWorld(w: World, o: Obs) returns (v: World)
    requires Suspending(w)
    ensures v == ApplyAll(w, Pass(w, o)) && v.status.phase == Phase.Suspended && v.status.jobName == None
    ensures forall n: nat :: WorkerAlive(v, n) <==> WorkerAlive(w, n) && w.status.jobName != Some(n)
  {
    var c := CancelRehearsal(w, w.status, o, NoFault);
    var u := ApplyAll(w, c.ws);
    v := ApplyAll(u, SuspendWrites(u, c.m));
    CancelShape(w, w.status, o, NoFault);
    ApplyAllConcat(w, c.ws, SuspendWrites(u, c.m));
    SuspendedJobs(u, c.m, 0);
    SuspendedIs(u, c.m);
    forall n: nat ensures WorkerAlive(v, n) <==> WorkerAlive(w, n) && w.status.jobName != Some(n) {
      SuspendedJobs(u, c.m, n);
    }
  }

  /** Only the recorded worker and the next one can be alive. */
  lemma AliveWorkers(w: World, n: nat)
    requires Workers(w) && Accounts(w.status) && WorkerAlive(w, n)
    ensures w.status.jobName == Some(n) || n == w.status.attempts + 1
    ensures n == w.status.attempts + 1 ==> w.status.jobName != Some(n)
  {
  }

  ghost predicate NoWorkerAlive(w: World) { forall n: nat :: !WorkerAlive(w, n) }

  lemma BookedWorld(w0: World, ls: seq<Label>) returns (w: World)
    requires Init(w0)
    ensures w == Run(w0, ls) && Workers(w) && Accounts(w.status)
  {
    w := Run(w0, ls);
    InvAlways(w0, ls);
  }

  /** With the recorded worker stopped, only the next attempt's can be left. */
  lemma AliveAfter(w: World, v: World)
    requires Workers(w) && Accounts(w.status)
    requires forall n: nat :: WorkerAlive(v, n) <==> WorkerAlive(w, n) && w.status.jobName != Some(n)
    ensures NoWorkerAlive(v) <==> !WorkerAlive(w, w.status.attempts + 1)
  {
    forall n: nat | WorkerAlive(w, n)
      ensures (w.status.jobName == Some(n) || n == w.status.attempts + 1) &&
              (n == w.status.attempts + 1 ==> w.status.jobName != Some(n))
    {
      AliveWorkers(w, n);
    }
  }

  /** After a whole suspending pass no worker Job is left alone, if and only if no worker of the next
      attempt was created without being recorded. */
  lemma SuspendStopsWorkersIff(w0: World, ls: seq<Label>, o: Obs) returns (w: World, v: World)
    requires Init(w0) && Suspending(Run(w0, ls))
    ensures w == Run(w0, ls) && v == ApplyAll(w, Pass(w, o))
    ensures v.status.phase == Phase.Suspended && v.status.jobName == None
    ensures NoWorkerAlive(v) <==> !WorkerAlive(w, w.status.attempts + 1)
  {
    w := BookedWorld(w0, ls);
    v := ParkedWorld(w, o);
    AliveAfter(w, v);
  }

  lemma SuspendedIs(w: World, m: Status)
    ensures SuspendedStatus(w, m).phase == Phase.Suspended && SuspendedStatus(w, m).jobName == None
  {
  }

  // ------------------------------------------------------------------ a deletion releases the Migration

  /** A pass over a Migration in deletion that still has its finalizer. */
  predicate Releasing(w: World) { !w.gone && w.deleting && w.finalizer }

  /** The recorded worker's Job is there, and nothing deletes it yet. */
  predicate RecordedLeft(w: World) {
    w.status.jobName.Some? && Worker(w.status.jobName.value) in w.jobs &&
    !w.jobs[Worker(w.status.jobName.value)].deleting
  }

  predicate Released(w: World, o: Obs) {
    w.status.attempts == 0 || (!RecordedLeft(w) && CleanupOver(w, o))
  }

  lemma DeletionEnds(u: World, o: Obs)
    requires u.finalizer
    ensures var v := ApplyAll(u, DeletionWrites(u, o));
            && (!v.finalizer <==> Released(u, o))
            && (!v.finalizer ==> v.jobs == u.jobs)
  {
    var ws := DeletionWrites(u, o);
    if ws != [] {
      ApplyOne(u, ws[0]);
    }
  }

  lemma DeletedWorld(w: World, o: Obs) returns (v: World)
    requires Releasing(w)
    ensures v == ApplyAll(w, Pass(w, o)) && (!v.finalizer <==> Released(w, o))
    ensures !v.finalizer ==> forall n: nat :: WorkerAlive(v, n) <==> WorkerAlive(w, n)
    ensures !v.finalizer ==> (JobKey.Cleanup in v.jobs <==> JobKey.Cleanup in w.jobs)
  {
    var c := CancelRehearsal(w, w.status, o, NoFault);
    var u := ApplyAll(w, c.ws);
    v := ApplyAll(u, DeletionWrites(u, o));
    CancelShape(w, w.status, o, NoFault);
    ApplyAllConcat(w, c.ws, DeletionWrites(u, o));
    DeletionEnds(u, o);
  }

  /** A whole deletion pass takes the finalizer off exactly when nothing was ever recorded, or the
      recorded worker is stopped and cleanup is over. It then leaves no worker running if and only if
      none of the next attempt was created without being recorded. */
  lemma ReleaseLeavesWorkersIff(w0: World, ls: seq<Label>, o: Obs) returns (w: World, v: World)
    requires Init(w0) && Releasing(Run(w0, ls))
    ensures w == Run(w0, ls) && v == ApplyAll(w, Pass(w, o))
    ensures !v.finalizer <==> w.status.attempts == 0 || (!RecordedLeft(w) && CleanupOver(w, o))
    ensures !v.finalizer ==> (NoWorkerAlive(v) <==> !WorkerAlive(w, w.status.attempts + 1))
  {
    w := BookedWorld(w0, ls);
    v := DeletedWorld(w, o);
    if !v.finalizer {
      AliveAfter(w, v);
    }
  }

  // ------------------------------------------------------------------ runs that reach the other side

  /** A pass that reads nothing but the lists. */
  function Blind(jobs: seq<JobKey>, pods: seq<nat>): Obs {
    Obs(jobs, pods, NoFault, NoReader, NoReader, false, NO_SAMPLE, NO_SAMPLE, None, None,
        false, false, false, None, false, false)
  }

  const CLONE := Spec(false, false, false, false, false, 0, false, false, false, false, false, false, false, 0, true)

  function Fresh(s: Spec): World {
    World(s, EMPTY_STATUS, false, false, false, map[], map[], 0, 0, History(false, true))
  }

  lemma {:induction false} RunOn(w0: World, ls: seq<Label>, l: Label)
    ensures Run(w0, ls + [l]) == Next(Run(w0, ls), l)
  {
    var all := ls + [l];
    assert all[..|all| - 1] == ls && all[|all| - 1] == l;
  }

  const PENDING := EMPTY_STATUS.(phase := Phase.Pending)

  const PREFLIGHTING := SetCond(PENDING, Validated, CondUnknown, PreflightRunning).(phase := Phase.Validating)

  const PREFLIGHT := NewJob(BuiltOther)

  const PREFLIGHTED := PREFLIGHT.(state := Succeeded)

  lemma PendingPass(s: Spec)
    requires !s.suspend
    ensures Next(Fresh(s), PassL(Blind([], []), 1)) == Fresh(s).(status := PENDING)
  {
    var w := Fresh(s);
    assert Pass(w, Blind([], [])) == [Patch(PENDING, true)];
    ApplyOne(w, Patch(PENDING, true));
  }

  /** The world in which the preflight runs. */
  function Checking(s: Spec): World {
    Fresh(s).(status := PREFLIGHTING, finalizer := s.follow, jobs := map[JobKey.Preflight := PREFLIGHT])
  }

  lemma PreflightWrites(w: World, o: Obs)
    requires w.status == PENDING && w.jobs == map[]
    ensures ActivePass(w, o) == [CreateJob(JobKey.Preflight, PREFLIGHT), Patch(PREFLIGHTING, false)]
  {
  }

  lemma PreflightPass(s: Spec)
    requires !s.suspend && ValidSpec(s)
    ensures Next(Fresh(s).(status := PENDING), PassL(Blind([], []), 3)) == Checking(s)
  {
    var w := Fresh(s).(status := PENDING);
    var o := Blind([], []);
    var x, y := CreateJob(JobKey.Preflight, PREFLIGHT), Patch(PREFLIGHTING, false);
    var w1 := w.(finalizer := s.follow);
    PreflightWrites(w1, o);
    assert [x, y][1..] == [y];
    ApplyOne(Apply(w1, x), y);
    assert ApplyAll(w1, [x, y]) == Checking(s);
    if s.follow {
      assert Pass(w, o) == [AddFinalizer] + [x, y];
      ApplyOne(w, AddFinalizer);
      ApplyAllConcat(w, [AddFinalizer], [x, y]);
    } else {
      assert Pass(w, o) == [x, y];
    }
    assert Prefix(Pass(w, o), 3) == Pass(w, o);
  }

  function Checked(s: Spec): World {
    Checking(s).(jobs := map[JobKey.Preflight := PREFLIGHTED])
  }

  lemma PreflightEnds(s: Spec)
    ensures Next(Checking(s), EnvL(JobEnds(JobKey.Preflight, true, ""))) == Checked(s)
  {
  }

  /** The working copy of the pass that starts attempt 1. */
  const STARTING := SetCond(PREFLIGHTING, Validated, CondTrue, SpecValid)

  const WORKER := NewJob(BuiltWorker(true))

  /** The worker exists, and its record is lost with the pass. */
  function Orphaned(s: Spec): World {
    Checked(s).(jobs := map[JobKey.Preflight := PREFLIGHTED, Worker(1) := WORKER])
  }

  function Recorded(s: Spec): World {
    Orphaned(s).(status := RecordedStatus(STARTING))
  }

  /** The checked world, whatever pods it has. */
  predicate IsChecked(w: World) { w == Checked(w.spec).(pods := w.pods, nextPod := w.nextPod) }

  lemma StartsFirst(w: World, o: Obs)
    requires IsChecked(w) && !w.spec.suspend && ValidSpec(w.spec)
    ensures StartAttempt(w, STARTING, o) == [CreateJob(Worker(1), WORKER), Patch(RecordedStatus(STARTING), false)]
  {
    assert StartAttempt(w, STARTING, o) == CreateAndRecord(w, STARTING);
  }

  lemma StartWrites(w: World, pods: seq<nat>)
    requires IsChecked(w) && !w.spec.suspend && ValidSpec(w.spec) && !w.spec.dryRun && !w.spec.reown
    ensures Pass(w, Blind([JobKey.Preflight], pods)) ==
              [CreateJob(Worker(1), WORKER), Patch(RecordedStatus(STARTING), false)]
  {
    var o := Blind([JobKey.Preflight], pods);
    NothingToCancel(w, STARTING, o);
    StartsFirst(w, o);
    assert ActivePass(w, o) == WorkerPass(w, STARTING, o);
    assert WorkerPass(w, STARTING, o) == [] + StartAttempt(w, STARTING, o);
  }

  lemma NothingToCancel(w: World, m: Status, o: Obs)
    requires m.rehearsal.None? && o.jobList == [JobKey.Preflight]
    ensures CancelRehearsal(w, m, o, NoFault) == Step(m, [], false)
  {
    assert o.jobList[1..] == [];
    assert Strays(w.jobs, o.jobList) == [];
  }

  lemma StartPass(s: Spec, landed: nat)
    requires !s.suspend && ValidSpec(s) && !s.dryRun && !s.reown && 1 <= landed <= 2
    ensures Next(Checked(s), PassL(Blind([JobKey.Preflight], []), landed)) ==
              if landed == 1 then Orphaned(s) else Recorded(s)
  {
    var w := Checked(s);
    var x, y := CreateJob(Worker(1), WORKER), Patch(RecordedStatus(STARTING), false);
    StartWrites(w, []);
    assert ValidObs(w, Blind([JobKey.Preflight], []));
    assert [x, y][..1] == [x] && [x, y][1..] == [y];
    ApplyOne(w, x);
    ApplyOne(Apply(w, x), y);
    assert ApplyAll(w, [x, y]) == ApplyAll(Apply(w, x), [y]);
  }

  /** The run up to the start of attempt 1. */
  function Opening(landed: nat): seq<Label> {
    [PassL(Blind([], []), 1)] + [PassL(Blind([], []), 3)] + [EnvL(JobEnds(JobKey.Preflight, true, ""))] +
    [PassL(Blind([JobKey.Preflight], []), landed)]
  }

  lemma OpeningRuns(s: Spec, landed: nat)
    requires !s.suspend && ValidSpec(s) && !s.dryRun && !s.reown && 1 <= landed <= 2
    ensures Run(Fresh(s), Opening(landed)) ==
              if landed == 1 then Orphaned(s) else Recorded(s)
  {
    var a, b := PassL(Blind([], []), 1), PassL(Blind([], []), 3);
    var c, d := EnvL(JobEnds(JobKey.Preflight, true, "")), PassL(Blind([JobKey.Preflight], []), landed);
    assert [] + [a] == [a];
    RunOn(Fresh(s), [], a);
    RunOn(Fresh(s), [a], b);
    RunOn(Fresh(s), [a] + [b], c);
    RunOn(Fresh(s), [a] + [b] + [c], d);
    PendingPass(s);
    PreflightPass(s);
    PreflightEnds(s);
    StartPass(s, landed);
  }

  /** The crash, then a suspend. */
  function OrphanedSuspend(): seq<Label> { Opening(1) + [EnvL(EditSpec(CLONE.(suspend := true)))] }

  lemma OrphanedWorld() returns (w: World)
    ensures w == Run(Fresh(CLONE), OrphanedSuspend()) && Init(Fresh(CLONE)) && w.status == Orphaned(CLONE).status
    ensures Suspending(w) && WorkerAlive(w, w.status.attempts + 1)
  {
    w := Orphaned(CLONE).(spec := CLONE.(suspend := true), hist := History(false, true));
    OpeningRuns(CLONE, 1);
    RunOn(Fresh(CLONE), Opening(1), EnvL(EditSpec(CLONE.(suspend := true))));
    OrphanAlive(w);
  }

  lemma OrphanAlive(w: World)
    requires w == Orphaned(CLONE).(spec := CLONE.(suspend := true), hist := History(false, true))
    ensures Suspending(w) && WorkerAlive(w, w.status.attempts + 1)
  {
  }

  /** A crash between creating attempt 1 and recording it, then a suspend: the suspending pass leaves
      the worker running. */
  lemma SuspendMissesAWorker(o: Obs)
    ensures var w := Run(Fresh(CLONE), OrphanedSuspend());
            Init(Fresh(CLONE)) && Suspending(w) && exists n: nat :: WorkerAlive(ApplyAll(w, Pass(w, o)), n)
  {
    var w := OrphanedWorld();
    var v := ParkedWorld(w, o);
    assert w.status.jobName.None? by { OrphanUnrecorded(w); }
    assert WorkerAlive(v, w.status.attempts + 1);
  }

  lemma OrphanUnrecorded(w: World)
    requires w.status == Orphaned(CLONE).status
    ensures w.status.jobName.None?
  {
  }

  /** The crash, then a deletion. */
  function OrphanedDelete(): seq<Label> { Opening(1) + [EnvL(DeleteMigration)] }

  lemma OrphanReleasing() returns (w: World)
    ensures w == Run(Fresh(LIVE), OrphanedDelete()) && Init(Fresh(LIVE)) && Releasing(w)
    ensures w.status.attempts == 0 && WorkerAlive(w, 1) && JobKey.Cleanup !in w.jobs
  {
    w := Orphaned(LIVE).(deleting := true);
    OpeningRuns(LIVE, 1);
    RunOn(Fresh(LIVE), Opening(1), EnvL(DeleteMigration));
  }

  /** A crash between creating attempt 1 and recording it, then a deletion: the deletion pass takes the
      finalizer off with the worker running and no cleanup Job. */
  lemma ReleaseMissesAWorker(o: Obs)
    ensures var w := Run(Fresh(LIVE), OrphanedDelete());
            var v := ApplyAll(w, Pass(w, o));
            Init(Fresh(LIVE)) && Releasing(w) && !v.finalizer && WorkerAlive(v, 1) && JobKey.Cleanup !in v.jobs
  {
    var w := OrphanReleasing();
    var v := DeletedWorld(w, o);
  }

  // ------------------------------------------------------------------ a second pod of one attempt

  /** The record of attempt 1 is lost, its pod starts, and its Job goes away. */
  function OnceCreated(): seq<Label> {
    Opening(1) + [EnvL(PodStarts(Worker(1)))] + [EnvL(JobRemoved(Worker(1)))]
  }

  /** The next pass creates the Job again. */
  function TwiceCreated(): seq<Label> {
    OnceCreated() + [PassL(Blind([JobKey.Preflight], [0]), 1)] + [EnvL(PodStarts(Worker(1)))]
  }

  lemma OnceCreatedRuns() returns (w: World)
    ensures w == Run(Fresh(CLONE), OnceCreated()) && w == Checked(CLONE).(pods := map[0 := Worker(1)], nextPod := 1)
  {
    OpeningRuns(CLONE, 1);
    RunOn(Fresh(CLONE), Opening(1), EnvL(PodStarts(Worker(1))));
    RunOn(Fresh(CLONE), Opening(1) + [EnvL(PodStarts(Worker(1)))], EnvL(JobRemoved(Worker(1))));
    w := EnvStep(StartPod(Orphaned(CLONE), Worker(1)), JobRemoved(Worker(1)));
    assert w.jobs == Checked(CLONE).jobs;
  }

  lemma CreatedAgain(w: World) returns (v: World)
    requires w == Checked(CLONE).(pods := map[0 := Worker(1)], nextPod := 1)
    ensures v == Next(Next(w, PassL(Blind([JobKey.Preflight], [0]), 1)), EnvL(PodStarts(Worker(1))))
    ensures v.pods == map[0 := Worker(1), 1 := Worker(1)] && !Owned(v, 0) && Owned(v, 1)
  {
    var o := Blind([JobKey.Preflight], [0]);
    StartWrites(w, [0]);
    assert ValidObs(w, o);
    assert Prefix(Pass(w, o), 1) == [CreateJob(Worker(1), WORKER)];
    ApplyOne(w, CreateJob(Worker(1), WORKER));
    v := StartPod(Apply(w, CreateJob(Worker(1), WORKER)), Worker(1));
  }

  /** Two pods of attempt 1 at the same time: the first has lost its Job (Pods.OneAttemptAtATime). */
  lemma SecondWorkerPod()
    ensures var w := Run(Fresh(CLONE), TwiceCreated());
            && Init(Fresh(CLONE)) && 0 in w.pods && w.pods[0] == Worker(1) && 1 in w.pods && w.pods[1] == Worker(1)
            && !Owned(w, 0)
  {
    var w := OnceCreatedRuns();
    var v := CreatedAgain(w);
    RunOn(Fresh(CLONE), OnceCreated(), PassL(Blind([JobKey.Preflight], [0]), 1));
    RunOn(Fresh(CLONE), OnceCreated() + [PassL(Blind([JobKey.Preflight], [0]), 1)], EnvL(PodStarts(Worker(1))));
  }

  // ------------------------------------------------------------------ a second pod of one rehearsal run

  /** A live migration whose rehearsal is requested. */
  const LIVE := CLONE.(follow := true, rehearsal := true)

  /** A pass that sees the base copy done and the stream, with nothing known of its lag. */
  function Watching(jobs: seq<JobKey>, pods: seq<nat>): Obs {
    Blind(jobs, pods).(markerLogged := true, sentinel := Some(Sentinel.State("", "", "", "")))
  }

  const RUN := JobKey.Rehearsal(1)

  /** Such a pass first creates the Job of run 1. */
  lemma WatchCreates(w: World, jobs: seq<JobKey>, pods: seq<nat>)
    requires w.spec == LIVE && w.status == RecordedStatus(STARTING) && w.finalizer && !w.deleting && !w.gone
    requires Worker(1) in w.jobs && w.jobs[Worker(1)] == WORKER && RUN !in w.jobs
    ensures var ws := Pass(w, Watching(jobs, pods)); |ws| >= 1 && ws[0] == CreateJob(RUN, PREFLIGHT)
  {
    var o := Watching(jobs, pods);
    var m := SetCond(w.status, Validated, CondTrue, SpecValid);
    var f := StreamStep(LIVE, m, o);
    Streams(m, o);
    StartsRun(w, f, o);
    RecordedRuns(w.status);
    WatchIs(w, o);
  }

  lemma StartsRun(w: World, f: Step, o: Obs)
    requires w.spec == LIVE && RUN !in w.jobs && o.fault == NoFault
    requires f.ws == [] && f.m.phase == Phase.Streaming && f.m.rehearsal == None
    ensures RehearsalStep(w, f, o).ws == [CreateJob(RUN, PREFLIGHT)]
  {
    assert StartRehearsal(w, f.m, NoFault).ws == [] + [CreateJob(RUN, PREFLIGHT)];
  }

  lemma WatchIs(w: World, o: Obs)
    requires w.spec == LIVE && !Terminal(w.status) && w.status.attempts == 1 && w.status.jobName == Some(1)
    requires w.finalizer && !w.deleting && !w.gone && Worker(1) in w.jobs && w.jobs[Worker(1)] == WORKER
    ensures Pass(w, o) == ObserveRunningJob(w, SetCond(w.status, Validated, CondTrue, SpecValid), o)
  {
  }

  lemma RecordedRuns(m: Status)
    requires m == RecordedStatus(STARTING)
    ensures !Terminal(m) && m.attempts == 1 && m.jobName == Some(1)
  {
  }

  lemma Streams(m: Status, o: Obs)
    requires m == SetCond(RecordedStatus(STARTING), Validated, CondTrue, SpecValid)
    requires o.markerLogged && o.now == NO_SAMPLE && o.sentinel == Some(Sentinel.State("", "", "", ""))
    ensures var f := StreamStep(LIVE, m, o); f.ws == [] && f.m.phase == Phase.Streaming && f.m.rehearsal == None
  {
    assert m.repl.None? && m.rehearsal.None?;
    assert ObserveCopy(LIVE, m, o) == (SetCond(m, CloneCompleted, CondTrue, BaseCopyDone), true);
    assert Sentinel.ToStatus(o.sentinel.value).lag.None?;
  }

  lemma WatchPass(w: World, jobs: seq<JobKey>, pods: seq<nat>)
    requires w.spec == LIVE && w.status == RecordedStatus(STARTING) && w.finalizer && !w.deleting && !w.gone
    requires Worker(1) in w.jobs && w.jobs[Worker(1)] == WORKER && RUN !in w.jobs
    requires ValidObs(w, Watching(jobs, pods))
    ensures Next(w, PassL(Watching(jobs, pods), 1)) == w.(jobs := w.jobs[RUN := PREFLIGHT])
  {
    var ws := Pass(w, Watching(jobs, pods));
    WatchCreates(w, jobs, pods);
    ApplyOne(w, ws[0]);
    assert Prefix(ws, 1) == [ws[0]];
  }

  const JOBS := [JobKey.Preflight] + [Worker(1)]

  /** The start of run 1 is lost twice; in between its Job goes away, its pod does not. */
  function TwiceStarted(): seq<Label> {
    OnceStarted() + [PassL(Watching(JOBS, [0]), 1)] + [EnvL(PodStarts(RUN))]
  }

  /** Up to the removal of the Job. */
  function OnceStarted(): seq<Label> {
    Opening(2) + [PassL(Watching(JOBS, []), 1)] + [EnvL(PodStarts(RUN))] + [EnvL(JobRemoved(RUN))]
  }

  lemma StartedOnce() returns (w: World)
    ensures w == Run(Fresh(LIVE), Opening(2) + [PassL(Watching(JOBS, []), 1)])
    ensures w == Recorded(LIVE).(jobs := Recorded(LIVE).jobs[RUN := PREFLIGHT])
  {
    OpeningRuns(LIVE, 2);
    RunOn(Fresh(LIVE), Opening(2), PassL(Watching(JOBS, []), 1));
    WatchPass(Recorded(LIVE), JOBS, []);
    w := Recorded(LIVE).(jobs := Recorded(LIVE).jobs[RUN := PREFLIGHT]);
  }

  lemma OnceStartedRuns() returns (w: World)
    ensures w == Run(Fresh(LIVE), OnceStarted())
    ensures w == Recorded(LIVE).(pods := map[0 := RUN], nextPod := 1)
    ensures ValidObs(w, Watching(JOBS, [0]))
  {
    var l1 := Opening(2) + [PassL(Watching(JOBS, []), 1)];
    var w2 := StartedOnce();
    RunOn(Fresh(LIVE), l1, EnvL(PodStarts(RUN)));
    RunOn(Fresh(LIVE), l1 + [EnvL(PodStarts(RUN))], EnvL(JobRemoved(RUN)));
    RemovedRun(Recorded(LIVE), StartPod(w2, RUN));
    w := EnvStep(StartPod(w2, RUN), JobRemoved(RUN));
  }

  /** Two rehearsal pods at the same time: the first has lost its Job (Pods.OneRehearsalPod). */
  lemma SecondRehearsalPod()
    ensures var w := Run(Fresh(LIVE), TwiceStarted());
            && Init(Fresh(LIVE))
            && 0 in w.pods && w.pods[0] == RUN && 1 in w.pods && w.pods[1] == RUN && !Owned(w, 0)
  {
    var w := OnceStartedRuns();
    var v := StartedAgain(w);
    RunOn(Fresh(LIVE), OnceStarted(), PassL(Watching(JOBS, [0]), 1));
    RunOn(Fresh(LIVE), OnceStarted() + [PassL(Watching(JOBS, [0]), 1)], EnvL(PodStarts(RUN)));
  }

  lemma StartedAgain(w: World) returns (v: World)
    requires w == Recorded(LIVE).(pods := map[0 := RUN], nextPod := 1)
    requires ValidObs(w, Watching(JOBS, [0]))
    ensures v == Next(Next(w, PassL(Watching(JOBS, [0]), 1)), EnvL(PodStarts(RUN)))
    ensures v.pods == map[0 := RUN, 1 := RUN] && !Owned(v, 0)
  {
    WatchPass(w, JOBS, [0]);
    v := StartPod(w.(jobs := w.jobs[RUN := PREFLIGHT]), RUN);
  }

  /** The Job is gone, its pod is not. */
  lemma RemovedRun(w1: World, w3: World)
    requires w1 == Recorded(LIVE) && w3 == StartPod(w1.(jobs := w1.jobs[RUN := PREFLIGHT]), RUN)
    ensures var w4 := EnvStep(w3, JobRemoved(RUN));
            w4 == w1.(pods := map[0 := RUN], nextPod := 1) && ValidObs(w4, Watching(JOBS, [0]))
  {
    assert w3.pods[0] == RUN;
    assert HasPod(w3, RUN);
    assert EnvStep(w3, JobRemoved(RUN)).jobs == w1.jobs;
  }
}
