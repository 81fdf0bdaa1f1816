/** What every landed write of every run keeps: the bookkeeping of attempts, Jobs and pods, and the
    meaning of the conditions. */
module Invariant {
  import opened Text
  import opened Conditions
  import opened Cluster
  import opened Passes
  import opened Runs

  // ------------------------------------------------------------------ bookkeeping

  /** Attempts, refunds and the gate's record of the last failure. */
  ghost predicate Accounts(m: Status) {
    && (m.attempts == 0 ==> m.exempt == 0 && m.gate.None? && m.jobName.None?)
    && (m.gate.Some? ==> m.gate.value.failedAttempt == m.attempts && m.jobName.None? && m.attempts >= 1)
    && m.exempt <= m.attempts
    && (m.attempts >= 1 && !(m.gate.Some? && m.gate.value.verdict.Exempt?) ==> m.exempt <= m.attempts - 1)
    && (m.jobName.Some? ==> m.jobName.value == m.attempts)
  }

  /** No pod of attempt k is unended, and none can start. */
  ghost predicate Quiet(w: World, k: nat) {
    && (forall u :: u in w.pods ==> w.pods[u] != Worker(k))
    && (Worker(k) in w.jobs ==> !Startable(w.jobs[Worker(k)]))
  }

  /** The Job finished or is being deleted. */
  predicate Stopping(j: Job) { !j.state.Running? || j.deleting }

  /** Only the recorded attempt and the one being started can have a pod, and never both. */
  ghost predicate Workers(w: World) {
    var a := w.status.attempts;
    && (forall k: nat :: Worker(k) in w.jobs ==> 1 <= k <= a + 1)
    && (forall k: nat :: Worker(k) in w.jobs && k < a ==> Stopping(w.jobs[Worker(k)]))
    && (forall u :: u in w.pods && w.pods[u].Worker? ==> 1 <= w.pods[u].n && a <= w.pods[u].n <= a + 1)
    && (Worker(a + 1) in w.jobs ==> Quiet(w, a))
    && (forall u :: u in w.pods && w.pods[u] == Worker(a + 1) ==> Quiet(w, a))
    && (w.status.jobName.None? && Worker(a) in w.jobs ==> Stopping(w.jobs[Worker(a)]))
    && (w.status.jobName.Some? && Worker(a) in w.jobs ==>
          Worker(a + 1) !in w.jobs && forall u :: u in w.pods ==> w.pods[u] != Worker(a + 1))
  }

  /** The retry budget, for a backoffLimit that is never lowered. */
  ghost predicate Budget(w: World) {
    var m := w.status;
    w.hist.limitKept ==>
      && m.attempts - m.exempt <= w.spec.backoffLimit + 1
      && (Worker(m.attempts + 1) in w.jobs ==> m.attempts - m.exempt < w.spec.backoffLimit + 1)
  }

  function LastRun(m: Status): nat { if m.rehearsal.Some? then m.rehearsal.value.run else 0 }

  predicate Armed(m: Status) { m.rehearsal.Some? && m.rehearsal.value.armed }

  /** The one run that may have a pod: the recorded one while armed, else the next one, which a
      crashed pass may have created without recording it. */
  function OpenRun(m: Status): nat { if Armed(m) then LastRun(m) else LastRun(m) + 1 }

  ghost predicate Rehearsals(w: World) {
    var m := w.status;
    && (forall k: nat :: JobKey.Rehearsal(k) in w.jobs ==> k <= OpenRun(m))
    && (forall k: nat :: JobKey.Rehearsal(k) in w.jobs && k < OpenRun(m) ==> !Startable(w.jobs[JobKey.Rehearsal(k)]))
    && (forall u :: u in w.pods && w.pods[u].Rehearsal? ==> w.pods[u].n == OpenRun(m))
  }

  /** What holds once only the finish path remains. */
  ghost predicate Settled(w: World) {
    var m := w.status;
    && w.hist.exited && m.attempts >= 1 && m.gate.None?
    && Worker(m.attempts + 1) !in w.jobs
    && (m.jobName.Some? && Worker(m.attempts) in w.jobs ==> w.jobs[Worker(m.attempts)].state.Succeeded?)
  }

  /** No finish Job exists before a worker exited 0, and a handover Job pins the finish path. */
  ghost predicate FinishJobs(w: World) {
    && (forall k: nat :: Worker(k) in w.jobs && w.jobs[Worker(k)].state.Succeeded? ==> w.hist.exited)
    && (JobKey.Verify in w.jobs ==> w.hist.exited)
    && (JobKey.Cleanup in w.jobs ==> w.hist.exited || w.deleting)
    && (JobKey.Reown in w.jobs ==> w.spec.reown && Settled(w))
  }

  ghost predicate PodIds(w: World) {
    forall u :: u in w.pods ==> u < w.nextPod
  }

  ghost predicate Book(w: World) {
    Accounts(w.status) && Workers(w) && Budget(w) && Rehearsals(w) && FinishJobs(w) && PodIds(w)
  }

  // ------------------------------------------------------------------ conditions

  predicate CloneOnlyDone(w: World) { !w.spec.follow && True(w.status, CloneCompleted) }

  /** A hold is on only while a retry really waits. */
  ghost predicate HoldMeans(w: World) {
    var m := w.status;
    True(m, RetryHeld) ==>
      && m.phase != Phase.Suspended && !Terminal(m) && m.attempts >= 1
      && (m.jobName.Some? ==> Worker(m.attempts) !in w.jobs)
      && JobKey.Reown !in w.jobs && !CloneOnlyDone(w)
  }

  ghost predicate Flags(w: World) {
    var m := w.status;
    && !(True(m, Complete) && True(m, CondType.Failed))
    && HoldMeans(w)
    && (CloneOnlyDone(w) ==> Settled(w))
    && (SnapshotLostSeen(m) ==> m.gate.Some?)
    && (w.spec.dryRun ==> m.attempts == 0)
  }

  ghost predicate Inv(w: World) { Book(w) && Flags(w) }
}
