/** Each kind of write and each step of the outside world keeps the invariant. */
module Steps {
  import opened Text
  import opened Conditions
  import opened Cluster
  import opened Passes
  import opened Runs
  import opened Invariant

  // ------------------------------------------------------------------ frames

  /** The two worlds agree on everything the bookkeeping of workers reads. */
  ghost predicate SameWorkers(w: World, v: World) {
    && v.status.attempts == w.status.attempts && v.status.jobName == w.status.jobName && v.pods == w.pods
    && (forall k: nat :: Worker(k) in v.jobs <==> Worker(k) in w.jobs)
    && (forall k: nat :: Worker(k) in w.jobs ==> v.jobs[Worker(k)] == w.jobs[Worker(k)])
  }

  lemma WorkersFrame(w: World, v: World)
    requires Workers(w) && SameWorkers(w, v)
    ensures Workers(v)
  {
  }

  ghost predicate SameRehearsals(w: World, v: World) {
    && OpenRun(v.status) == OpenRun(w.status) && v.pods == w.pods && v.hist == w.hist
    && (forall k: nat :: JobKey.Rehearsal(k) in v.jobs <==> JobKey.Rehearsal(k) in w.jobs)
    && (forall k: nat :: JobKey.Rehearsal(k) in w.jobs ==> v.jobs[JobKey.Rehearsal(k)] == w.jobs[JobKey.Rehearsal(k)])
  }

  lemma RehearsalsFrame(w: World, v: World)
    requires Rehearsals(w) && SameRehearsals(w, v)
    ensures Rehearsals(v)
  {
  }

  // ------------------------------------------------------------------ deletes

  lemma DeleteKeepsWorkers(w: World, k: JobKey, p: Policy)
    requires Workers(w)
    ensures Workers(Apply(w, DeleteJob(k, p)))
  {
  }

  lemma DeleteKeepsRehearsals(w: World, k: JobKey, p: Policy)
    requires Rehearsals(w) && !(k.Rehearsal? && p.Background?)
    ensures Rehearsals(Apply(w, DeleteJob(k, p)))
  {
  }

  /** Deleting a Job, or marking it for deletion, never breaks the bookkeeping. A rehearsal Job is
      only ever deleted in the foreground. */
  lemma DeleteKeeps(w: World, k: JobKey, p: Policy)
    requires Inv(w) && !(k.Rehearsal? && p.Background?)
    ensures Inv(Apply(w, DeleteJob(k, p)))
  {
    DeleteKeepsWorkers(w, k, p);
    DeleteKeepsRehearsals(w, k, p);
  }

  // ------------------------------------------------------------------ creates

  /** A Job that is neither a worker, a rehearsal nor a finish Job touches no bookkeeping. */
  predicate SideJob(k: JobKey) { k.Gate? || k.Preflight? || k.Catalog? || k.Compare? }

  /** Creating a Job of these kinds leaves the workers' and rehearsals' bookkeeping alone. */
  lemma CreateFrames(w: World, k: JobKey, j: Job)
    requires Workers(w) && Rehearsals(w) && !k.Worker? && !k.Rehearsal?
    ensures Workers(Apply(w, CreateJob(k, j))) && Rehearsals(Apply(w, CreateJob(k, j)))
    ensures SameWorkers(w, Apply(w, CreateJob(k, j)))
  {
    var v := Apply(w, CreateJob(k, j));
    WorkersFrame(w, v);
    RehearsalsFrame(w, v);
  }

  /** Given that the finish Jobs are in order, a new Job breaks none of the flags. */
  lemma FlagsFrame(w: World, v: World)
    requires Flags(w) && SameWorkers(w, v)
    requires v == w.(jobs := v.jobs)
    requires True(w.status, RetryHeld) ==> JobKey.Reown !in v.jobs
    ensures Flags(v)
  {
  }

  lemma BookFrame(w: World, v: World)
    requires Book(w) && SameWorkers(w, v) && Rehearsals(v) && FinishJobs(v)
    requires v == w.(jobs := v.jobs)
    ensures Book(v)
  {
    WorkersFrame(w, v);
  }

  lemma SettledFrame(w: World, v: World)
    requires SameWorkers(w, v) && v == w.(jobs := v.jobs)
    ensures Settled(w) <==> Settled(v)
  {
  }

  lemma CreateSideJobKeeps(w: World, k: JobKey, j: Job)
    requires Inv(w) && SideJob(k)
    ensures Inv(Apply(w, CreateJob(k, j)))
  {
    var v := Apply(w, CreateJob(k, j));
    CreateFrames(w, k, j);
    SettledFrame(w, v);
    BookFrame(w, v);
    FlagsFrame(w, v);
  }

  lemma CreateVerifyKeeps(w: World, j: Job)
    requires Inv(w) && w.hist.exited
    ensures Inv(Apply(w, CreateJob(JobKey.Verify, j)))
  {
    var v := Apply(w, CreateJob(JobKey.Verify, j));
    CreateFrames(w, JobKey.Verify, j);
    SettledFrame(w, v);
    BookFrame(w, v);
    FlagsFrame(w, v);
  }

  lemma CreateCleanupKeeps(w: World, j: Job)
    requires Inv(w) && (w.hist.exited || w.deleting)
    ensures Inv(Apply(w, CreateJob(JobKey.Cleanup, j)))
  {
    var v := Apply(w, CreateJob(JobKey.Cleanup, j));
    CreateFrames(w, JobKey.Cleanup, j);
    SettledFrame(w, v);
    BookFrame(w, v);
    FlagsFrame(w, v);
  }

  lemma CreateReownKeeps(w: World, j: Job)
    requires Inv(w) && Settled(w) && w.spec.reown && !True(w.status, RetryHeld)
    ensures Inv(Apply(w, CreateJob(JobKey.Reown, j)))
  {
    var v := Apply(w, CreateJob(JobKey.Reown, j));
    CreateFrames(w, JobKey.Reown, j);
    SettledFrame(w, v);
    BookFrame(w, v);
    FlagsFrame(w, v);
  }

  lemma CreateRehearsalKeepsRehearsals(w: World, j: Job)
    requires Rehearsals(w)
    ensures Rehearsals(Apply(w, CreateJob(JobKey.Rehearsal(OpenRun(w.status)), j)))
  {
  }

  lemma CreateRehearsalKeeps(w: World, j: Job)
    requires Inv(w)
    ensures Inv(Apply(w, CreateJob(JobKey.Rehearsal(OpenRun(w.status)), j)))
  {
    var v := Apply(w, CreateJob(JobKey.Rehearsal(OpenRun(w.status)), j));
    CreateRehearsalKeepsRehearsals(w, j);
    SettledFrame(w, v);
    BookFrame(w, v);
    FlagsFrame(w, v);
  }

  lemma CreateWorkerKeepsWorkers(w: World, b: Built)
    requires Workers(w) && Quiet(w, w.status.attempts)
    requires w.status.jobName.Some? ==> Worker(w.status.attempts) !in w.jobs
    ensures Workers(Apply(w, CreateJob(Worker(w.status.attempts + 1), NewJob(b))))
  {
  }

  /** The next worker is created while the attempt before it is quiet and within the budget. */
  lemma CreateWorkerKeeps(w: World, b: Built)
    requires Inv(w) && Quiet(w, w.status.attempts) && JobKey.Reown !in w.jobs && !CloneOnlyDone(w)
    requires w.status.jobName.Some? ==> Worker(w.status.attempts) !in w.jobs
    requires w.status.attempts - w.status.exempt < w.spec.backoffLimit + 1
    ensures Inv(Apply(w, CreateJob(Worker(w.status.attempts + 1), NewJob(b))))
  {
    var v := Apply(w, CreateJob(Worker(w.status.attempts + 1), NewJob(b)));
    CreateWorkerKeepsWorkers(w, b);
    RehearsalsFrame(w, v);
    assert FinishJobs(v) && Budget(v);
    assert Flags(v);
  }

  // ------------------------------------------------------------------ status patches

  /** The bookkeeping reads nothing else of the status. */
  predicate SameBook(m: Status, n: Status) {
    m.attempts == n.attempts && m.exempt == n.exempt && m.gate == n.gate && m.jobName == n.jobName &&
    OpenRun(m) == OpenRun(n)
  }

  lemma PatchKeepsBook(w: World, m: Status)
    requires Book(w) && SameBook(w.status, m)
    ensures Book(w.(status := m))
  {
    WorkersFrame(w, w.(status := m));
    RehearsalsFrame(w, w.(status := m));
  }

  /** The created worker becomes the recorded one. */
  lemma RecordKeepsBook(w: World, m: Status)
    requires Book(w) && Worker(w.status.attempts + 1) in w.jobs
    requires SameBook(w.status.(attempts := w.status.attempts + 1, jobName := Some(w.status.attempts + 1),
             gate := None), m)
    ensures Book(w.(status := m))
  {
    RehearsalsFrame(w, w.(status := m));
  }

  /** A failed worker hands over to the retry gate. */
  lemma FailureKeepsBook(w: World, m: Status)
    requires Book(w) && w.status.jobName.Some?
    requires Worker(w.status.attempts) in w.jobs && w.jobs[Worker(w.status.attempts)].state.Failed?
    requires m.gate.Some? && m.gate.value.failedAttempt == w.status.attempts && m.gate.value.verdict.Undecided?
    requires SameBook(w.status.(jobName := None, gate := m.gate), m)
    ensures Book(w.(status := m))
  {
    RehearsalsFrame(w, w.(status := m));
  }

  /** The gate's verdict, which refunds the attempt when it is Exempt. */
  lemma VerdictKeepsBook(w: World, m: Status, v: Verdict)
    requires Book(w) && w.status.gate.Some? && w.status.gate.value.verdict.Undecided?
    requires SameBook(w.status.(gate := Some(w.status.gate.value.(verdict := v)),
                                exempt := if v.Exempt? then w.status.exempt + 1 else w.status.exempt), m)
    ensures Book(w.(status := m))
  {
    WorkersFrame(w, w.(status := m));
    RehearsalsFrame(w, w.(status := m));
  }

  /** A suspend forgets the worker it deleted. */
  lemma SuspendKeepsBook(w: World, m: Status)
    requires Book(w)
    requires Worker(w.status.attempts) in w.jobs ==> Stopping(w.jobs[Worker(w.status.attempts)])
    requires SameBook(w.status.(jobName := None), m)
    ensures Book(w.(status := m))
  {
    RehearsalsFrame(w, w.(status := m));
  }

  /** A rehearsal re-arms once no pod of it is left and none can start. */
  lemma DisarmKeepsBook(w: World, m: Status)
    requires Book(w) && !RehearsalPod(w) && OpenRun(m) == OpenRun(w.status) + 1
    requires forall k: nat :: JobKey.Rehearsal(k) in w.jobs ==> !Startable(w.jobs[JobKey.Rehearsal(k)])
    requires m.attempts == w.status.attempts && m.exempt == w.status.exempt
    requires m.gate == w.status.gate && m.jobName == w.status.jobName
    ensures Book(w.(status := m))
  {
    WorkersFrame(w, w.(status := m));
  }

  // ------------------------------------------------------------------ the outside world

  lemma PodStartsKeepsWorkers(w: World, k: JobKey)
    requires Book(w) && k in w.jobs && Startable(w.jobs[k])
    ensures Workers(StartPod(w, k))
  {
  }

  lemma PodStartsKeepsRehearsals(w: World, k: JobKey)
    requires Book(w) && k in w.jobs && Startable(w.jobs[k])
    ensures Rehearsals(StartPod(w, k))
  {
  }

  lemma PodStartsKeeps(w: World, k: JobKey)
    requires Inv(w) && k in w.jobs && Startable(w.jobs[k])
    ensures Inv(StartPod(w, k))
  {
    PodStartsKeepsWorkers(w, k);
    PodStartsKeepsRehearsals(w, k);
  }

  lemma PodEndsKeeps(w: World, u: nat)
    requires Inv(w)
    ensures Inv(w.(pods := w.pods - {u}))
  {
  }

  lemma JobEndsKeeps(w: World, k: JobKey, ok: bool, log: string)
    requires Inv(w) && k in w.jobs && w.jobs[k].state.Running?
    ensures Inv(EndJob(w, k, ok, log))
  {
    var v := EndJob(w, k, ok, log);
    assert Workers(v);
    assert Rehearsals(v);
  }

  lemma JobRemovedKeeps(w: World, k: JobKey)
    requires Inv(w)
    ensures Inv(EnvStep(w, JobRemoved(k)))
  {
  }

  lemma EditKeeps(w: World, s: Spec)
    requires Inv(w)
    ensures Inv(EnvStep(w, EditSpec(s)))
  {
    if SameImmutable(w.spec, s) {
      var v := EnvStep(w, EditSpec(s));
      WorkersFrame(w, v);
    }
  }

  /** Nothing the outside world does breaks the invariant. */
  lemma EnvKeeps(w: World, e: Env)
    requires Inv(w)
    ensures Inv(EnvStep(w, e))
  {
    match e
    case Tick(d) => SameKeeps(w, EnvStep(w, e));
    case PodStarts(k) =>
      if k in w.jobs && Startable(w.jobs[k]) {
        PodStartsKeeps(w, k);
      }
    case PodEnds(u) => PodEndsKeeps(w, u);
    case JobEnds(k, ok, log) =>
      if k in w.jobs && w.jobs[k].state.Running? {
        JobEndsKeeps(w, k, ok, log);
      }
    case JobDeleting(k) => DeleteKeeps(w, k, Foreground);
    case JobRemoved(k) => JobRemovedKeeps(w, k);
    case EditSpec(s) => EditKeeps(w, s);
    case DeleteMigration => SameKeeps(w, EnvStep(w, e));
  }

  /** The clock, the finalizer and the deletion mark are no bookkeeping. */
  lemma SameKeeps(w: World, v: World)
    requires Inv(w)
    requires v == w.(clock := v.clock, finalizer := v.finalizer, deleting := v.deleting, gone := v.gone)
    requires w.deleting ==> v.deleting
    ensures Inv(v)
  {
    WorkersFrame(w, v);
    RehearsalsFrame(w, v);
  }
}
