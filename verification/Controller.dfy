/** The reconciler as it runs: methods that change a working copy of the status and write to the API
    server step by step, and may crash between any two writes. Each is proved to land exactly the
    writes that its function in Passes.dfy gives, up to the crash. */
module Controllers {
  import opened Text
  import opened Conditions
  import opened Samples
  import opened Cluster
  import opened Passes
  import opened Runs
  import GateLog
  import Sentinel

  /** From world a with n writes to go, ws ran to world b with k to go, or to a crash. */
  ghost predicate Ran(a: World, n: nat, ws: seq<Write>, b: World, k: nat, crashed: bool) {
    && b == ApplyAll(a, Prefix(ws, n))
    && crashed == (|ws| > n)
    && k == (if |ws| > n then 0 else n - |ws|)
  }

  lemma RanNothing(a: World, n: nat)
    ensures Ran(a, n, [], a, n, false)
  {
  }

  lemma RanOn(a: World, n: nat, xs: seq<Write>, b: World, k: nat, ys: seq<Write>, c: World, l: nat, crashed: bool)
    requires Ran(a, n, xs, b, k, false) && Ran(b, k, ys, c, l, crashed)
    ensures Ran(a, n, xs + ys, c, l, crashed)
  {
    ApplyAllConcat(a, xs, Prefix(ys, k));
    assert Prefix(xs + ys, n) == xs + Prefix(ys, k);
  }

  lemma RanCrashed(a: World, n: nat, xs: seq<Write>, b: World, k: nat, ys: seq<Write>)
    requires Ran(a, n, xs, b, k, true)
    ensures Ran(a, n, xs + ys, b, k, true)
  {
    assert Prefix(xs + ys, n) == Prefix(xs, n);
  }

  lemma RanAll(a: World, n: nat, ws: seq<Write>, b: World, k: nat)
    requires Ran(a, n, ws, b, k, false)
    ensures b == ApplyAll(a, ws)
  {
  }

  lemma DeletesSplit(ks: seq<JobKey>, d: nat, p: Policy)
    requires d < |ks|
    ensures Deletes(ks[..d], p) + [DeleteJob(ks[d], p)] == Deletes(ks[..d + 1], p)
    ensures Deletes(ks[..d + 1], p) + Deletes(ks[d + 1..], p) == Deletes(ks, p)
  {
  }

  /** One more of a list of Jobs is deleted. */
  lemma RanDelete(a: World, n: nat, ks: seq<JobKey>, d: nat, p: Policy, b: World, k: nat, c: World, l: nat,
        crashed: bool)
    requires d < |ks| && Ran(a, n, Deletes(ks[..d], p), b, k, false) && Ran(b, k, [DeleteJob(ks[d], p)], c, l, crashed)
    ensures crashed ==> Ran(a, n, Deletes(ks, p), c, l, true)
    ensures !crashed ==> Ran(a, n, Deletes(ks[..d + 1], p), c, l, false)
  {
    DeletesSplit(ks, d, p);
    RanOn(a, n, Deletes(ks[..d], p), b, k, [DeleteJob(ks[d], p)], c, l, crashed);
    if crashed {
      RanCrashed(a, n, Deletes(ks[..d + 1], p), c, l, Deletes(ks[d + 1..], p));
    }
  }

  /** The next Job of the list is the next stray, or no stray. */
  lemma StraysFrom(jobs: map<JobKey, Job>, list: seq<JobKey>, i: nat, strays: seq<JobKey>, done: nat)
    requires i < |list| && done <= |strays| && strays[done..] == Strays(jobs, list[i..])
    ensures if IsStray(jobs, list[i])
            then done < |strays| && strays[done] == list[i] && strays[done + 1..] == Strays(jobs, list[i + 1..])
            else strays[done..] == Strays(jobs, list[i + 1..])
  {
    assert list[i..][0] == list[i] && list[i..][1..] == list[i + 1..];
    if IsStray(jobs, list[i]) {
      assert strays[done..][1..] == strays[done + 1..];
    }
  }

  lemma ProbesFrom(list: seq<JobKey>, i: nat, probes: seq<JobKey>, done: nat)
    requires i < |list| && done <= |probes| && probes[done..] == StrayProbes(list[i..])
    ensures if list[i].Gate?
            then done < |probes| && probes[done] == list[i] && probes[done + 1..] == StrayProbes(list[i + 1..])
            else probes[done..] == StrayProbes(list[i + 1..])
  {
    assert list[i..][0] == list[i] && list[i..][1..] == list[i + 1..];
    if list[i].Gate? {
      assert probes[done..][1..] == probes[done + 1..];
    }
  }

  lemma RanNoDeletes(a: World, n: nat, ks: seq<JobKey>, p: Policy)
    ensures Ran(a, n, Deletes(ks[..0], p), a, n, false)
  {
    assert Deletes(ks[..0], p) == [];
  }

  lemma PodsStay(a: World, n: nat, ws: seq<Write>, b: World, k: nat)
    requires Ran(a, n, ws, b, k, false)
    ensures b == ApplyAll(a, ws) && b.pods == a.pods && b.clock == a.clock && b.spec == a.spec
  {
    WritesKeepWorld(a, ws);
  }

  lemma DropKeepsKeys(a: World, n: nat, m: Status, run: nat, b: World, k: nat)
    requires Ran(a, n, DropPrevious(m, run), b, k, false)
    ensures JobKey.Rehearsal(run) in b.jobs <==> JobKey.Rehearsal(run) in a.jobs
  {
    RanAll(a, n, DropPrevious(m, run), b, k);
    if DropPrevious(m, run) != [] {
      ApplyOne(a, DropPrevious(m, run)[0]);
    }
  }

  /** The rehearsal step with no rehearsal requested, as one cancel and what it is followed by. */
  lemma UnrequestedIs(w: World, m: Status, o: Obs) returns (c: Step)
    requires !w.spec.rehearsal && m.rehearsal.Some? && m.rehearsal.value.armed
    ensures c == CancelRehearsal(w, m, o, o.fault) && c.m.rehearsal.Some?
    ensures ReconcileRehearsal(w, m, o) ==
              if c.failed || o.fault.AtPods? || RehearsalPod(w) then c
              else Step(c.m.(rehearsal := Some(c.m.rehearsal.value.(armed := false))), c.ws, false)
  {
    c := CancelRehearsal(w, m, o, o.fault);
    assert CancelRecordedRehearsal(w, m, o.fault).m.rehearsal.Some?;
  }

  lemma CreateReadsSpec(w: World, v: World, m: Status)
    requires v.spec == w.spec
    ensures CreateAndRecord(w, m) == CreateAndRecord(v, m)
  {
  }

  lemma SettleReads(w: World, v: World, m: Status)
    requires v.spec == w.spec
    ensures Settle(w, m) == Settle(v, m)
  {
  }

  lemma AfterCrash(a: World, n: nat, g: GateStep, b: World, k: nat)
    requires Ran(a, n, g.ws, b, k, true)
    ensures Ran(a, n, AfterGate(a, g), b, k, true)
  {
    if g.Cleared? {
      RanCrashed(a, n, g.ws, b, k, Settle(a, g.m));
    }
  }

  /** A stage ended the pass with its writes, or left the world alone and went on. */
  ghost predicate StageRan(a: World, n: nat, f: Finish, b: World, k: nat, crashed: bool, handled: bool, m: Status) {
    match f
    case Stop(ws) => Ran(a, n, ws, b, k, crashed) && handled
    case Go(m1) => b == a && k == n && !crashed && !handled && m == m1
  }

  lemma ParkedWorkerKeeps(a: World, n: nat, m: Status, b: World, k: nat)
    requires Ran(a, n, CancelledWorker(a, m), b, k, false)
    ensures forall key: JobKey :: !key.Worker? ==> JobAt(b, key) == JobAt(a, key)
    ensures b.spec == a.spec
  {
    RanAll(a, n, CancelledWorker(a, m), b, k);
    if CancelledWorker(a, m) != [] {
      ApplyOne(a, CancelledWorker(a, m)[0]);
    }
  }

  lemma ParkedPreflightKeeps(a: World, m: Status, b: World, k: nat, c: World, l: nat)
    requires Ran(b, k, ParkedPreflight(a, m), c, l, false)
    requires b.spec == a.spec && forall key: JobKey :: !key.Worker? ==> JobAt(b, key) == JobAt(a, key)
    ensures ReownUnfinished(c) == ReownUnfinished(a)
  {
    RanAll(b, k, ParkedPreflight(a, m), c, l);
    assert JobAt(b, JobKey.Reown) == JobAt(a, JobKey.Reown);
    if ParkedPreflight(a, m) != [] {
      ApplyOne(b, ParkedPreflight(a, m)[0]);
    }
  }

  lemma SuspendParts(w: World, m: Status)
    ensures SuspendWrites(w, m) ==
              (CancelledWorker(w, m) + (ParkedPreflight(w, m) + ParkedReown(w))) +
              ([DeleteJob(JobKey.Gate(m.attempts + 1), Background)] + [Patch(SuspendedStatus(w, m), false)])
  {
  }

  lemma CancelKeepsAttempts(w: World, m: Status, o: Obs)
    ensures var c := CancelRehearsal(w, m, o, NoFault);
            c.m.attempts == m.attempts && c.m.jobName == m.jobName && ApplyAll(w, c.ws).status == w.status
  {
    var r := RecordedDeletes(w, m);
    DeletesKeepStatus(w, r.ws + Deletes(UpTo(Strays(ApplyAll(w, r.ws).jobs, o.jobList), NoFault), Foreground));
  }

  lemma RecordedDeletes(w: World, m: Status) returns (c: Step)
    ensures c == CancelRecordedRehearsal(w, m, NoFault) && !c.failed
    ensures c.m.attempts == m.attempts && c.m.jobName == m.jobName && forall x :: x in c.ws ==> x.DeleteJob?
  {
    c := CancelRecordedRehearsal(w, m, NoFault);
  }

  lemma {:induction false} DeletesKeepStatus(w: World, ws: seq<Write>)
    requires forall x :: x in ws ==> x.DeleteJob?
    ensures ApplyAll(w, ws).status == w.status
    decreases |ws|
  {
    if ws != [] {
      assert ws[0] in ws;
      DeletesKeepStatus(Apply(w, ws[0]), ws[1..]);
    }
  }

  lemma StreamWrites(s: Spec, m: Status, o: Obs)
    ensures var f := StreamStep(s, m, o); f.ws == [] || f.ws == [SetEndpos]
  {
  }

  lemma StreamKeepsWorld(a: World, n: nat, s: Step, b: World, k: nat, o: Obs)
    requires Ran(a, n, s.ws, b, k, false) && (s.ws == [] || s.ws == [SetEndpos])
    ensures b == a
  {
    RanAll(a, n, s.ws, b, k);
    ApplyOne(a, SetEndpos);
  }

  class Controller {
    /** What the API server holds. */
    var api: World
    /** How many more writes land before the crash. */
    var left: nat
    var crashed: bool
    /** The working copy of the status. */
    var m: Status

    constructor (w: World, n: nat)
      ensures api == w && left == n && !crashed && m == w.status
    {
      api, left, crashed, m := w, n, false, w.status;
    }

    /** One write to the API server; once crashed, nothing lands any more. */
    method Land(x: Write)
      requires !crashed
      modifies this`api, this`left, this`crashed
      ensures Ran(old(api), old(left), [x], api, left, crashed)
      ensures !crashed ==> api == Apply(old(api), x)
    {
      if left == 0 {
        crashed := true;
      } else {
        api := Apply(api, x);
        left := left - 1;
        assert [x][1..] == [];
      }
    }

    method UpdateStatus()
      requires !crashed
      modifies this`api, this`left, this`crashed
      ensures Ran(old(api), old(left), [Patch(m, false)], api, left, crashed)
    {
      Land(Patch(m, false));
    }

    method PatchStatusLocked()
      requires !crashed
      modifies this`api, this`left, this`crashed
      ensures Ran(old(api), old(left), [Patch(m, true)], api, left, crashed)
      ensures !crashed ==> api == Apply(old(api), Patch(m, true))
    {
      Land(Patch(m, true));
    }

    method SetCondition(t: CondType, s: CondStatus, r: Reason)
      modifies this`m
      ensures m == SetCond(old(m), t, s, r)
    {
      m := m.(conds := m.conds[t := Condition(s, r)]);
    }

    // ---------------------------------------------------------------- holds and failures

    method SetRetryHold(r: Reason)
      modifies this`m
      ensures m == SetHold(api.spec, old(m), r)
    {
      SetCondition(RetryHeld, CondTrue, r);
      if m.phase == Phase.Suspended && !api.spec.suspend {
        m := m.(phase := AttemptPhase(m));
      }
    }

    method KeepProbing()
      modifies this`m
      ensures m == Probing(api.spec, old(m))
    {
      if True(m, RetryHeld) && m.conds[RetryHeld].reason != GateProbing &&
         m.conds[RetryHeld].reason != WorkerPodRemains {
        SetRetryHold(m.conds[RetryHeld].reason);
        return;
      }
      SetRetryHold(GateProbing);
    }

    method EndRetryHold(r: Reason)
      modifies this`m
      ensures m == EndHold(old(m), r)
    {
      if True(m, RetryHeld) {
        SetCondition(RetryHeld, CondFalse, r);
      }
    }

    method FailMigration(r: Reason)
      modifies this`m
      ensures m == Fail(old(m), r)
    {
      m := m.(phase := Phase.Failed);
      SetCondition(CondType.Failed, CondTrue, r);
      EndRetryHold(HoldMigrationFailed);
    }

    method FailSpentBudget()
      modifies this`m
      ensures m == FailBudget(old(m))
    {
      if m.gate.Some? {
        SetCondition(CloneCompleted, CondFalse, CloneFailed);
      }
      FailMigration(BackoffLimitExceeded);
    }

    // ---------------------------------------------------------------- the rehearsal

    /** Reads the pod list once; the first match ends the loop. */
    method FindPod(list: seq<nat>, rehearsal: bool, key: JobKey) returns (found: bool)
      requires forall u :: u in list <==> u in api.pods
      ensures found <==> if rehearsal then RehearsalPod(api) else HasPod(api, key)
    {
      found := false;
      var i := 0;
      while i < |list|
        invariant 0 <= i <= |list|
        invariant forall k :: 0 <= k < i ==>
                    !(if rehearsal then api.pods[list[k]].Rehearsal? else api.pods[list[k]] == key)
      {
        assert list[i] in list;
        var k := api.pods[list[i]];
        if (rehearsal && k.Rehearsal?) || (!rehearsal && k == key) {
          return true;
        }
        i := i + 1;
      }
    }

    method CancelRecorded(f: Fault) returns (failed: bool)
      requires !crashed
      modifies this
      ensures var c := CancelRecordedRehearsal(old(api), old(m), f);
              Ran(old(api), old(left), c.ws, api, left, crashed) && (!crashed ==> m == c.m && failed == c.failed)
    {
      failed := false;
      RanNothing(api, left);
      if m.rehearsal.None? || !m.rehearsal.value.outcome.InProgress? {
        return;
      }
      if f.AtGet? {
        return true;
      }
      var job := RecordedJob(api, m);
      if job.Some? {
        if !job.value.state.Running? {
          m := RecordRehearsal(m, job.value);
          return;
        }
        if !job.value.deleting {
          if f.AtDelete? {
            return true;
          }
          Land(DeleteJob(JobKey.Rehearsal(m.rehearsal.value.job.value), Foreground));
          if crashed {
            return;
          }
        }
      }
      m := SetOutcome(m, Canceled);
    }

    /** Deletes the strays one by one, from one list read before the first delete. */
    method CancelRun(o: Obs, f: Fault) returns (failed: bool)
      requires !crashed
      modifies this
      ensures var c := CancelRehearsal(old(api), old(m), o, f);
              Ran(old(api), old(left), c.ws, api, left, crashed) && (!crashed ==> m == c.m && failed == c.failed)
    {
      ghost var a, n := api, left;
      ghost var c := CancelRecordedRehearsal(api, m, f);
      ghost var spec := CancelRehearsal(api, m, o, f).ws;
      failed := CancelRecorded(f);
      if crashed {
        RanCrashed(a, n, c.ws, api, left, if |spec| >= |c.ws| then spec[|c.ws|..] else []);
        assert c.failed ==> spec == c.ws;
        assert !c.failed && f.AtList? ==> spec == c.ws;
        assert spec == c.ws + spec[|c.ws|..];
        return;
      }
      if failed {
        return;
      }
      if f.AtList? {
        return true;
      }
      RanAll(a, n, c.ws, api, left);
      failed := DeleteStrays(o.jobList, f);
      ghost var strays := Strays(ApplyAll(a, c.ws).jobs, o.jobList);
      if crashed {
        RanOn(a, n, c.ws, ApplyAll(a, c.ws), n - |c.ws|, spec[|c.ws|..], api, left, true);
      } else {
        RanOn(a, n, c.ws, ApplyAll(a, c.ws), n - |c.ws|, spec[|c.ws|..], api, left, false);
      }
    }

    method DeleteStrays(list: seq<JobKey>, f: Fault) returns (failed: bool)
      requires !crashed
      modifies this`api, this`left, this`crashed
      ensures var strays := Strays(old(api).jobs, list);
              && Ran(old(api), old(left), Deletes(UpTo(strays, f), Foreground), api, left, crashed)
              && (!crashed ==> failed == FailsAt(strays, f))
    {
      ghost var a, n := api, left;
      var jobs := api.jobs;
      ghost var strays := Strays(jobs, list);
      ghost var target := UpTo(strays, f);
      failed := false;
      var i, done := 0, 0;
      RanNoDeletes(a, n, target, Foreground);
      while i < |list|
        invariant 0 <= i <= |list| && done <= |target| && !crashed && !failed
        invariant strays[done..] == Strays(jobs, list[i..])
        invariant Ran(a, n, Deletes(target[..done], Foreground), api, left, false)
      {
        StraysFrom(jobs, list, i, strays, done);
        if IsStray(jobs, list[i]) {
          if f.AtStray? && f.i == done {
            assert target[..done] == target;
            return true;
          }
          ghost var b, k := api, left;
          Land(DeleteJob(list[i], Foreground));
          RanDelete(a, n, target, done, Foreground, b, k, api, left, crashed);
          if crashed {
            return;
          }
          done := done + 1;
        }
        i := i + 1;
      }
      assert target[..done] == target;
    }

    method StartRun(f: Fault) returns (failed: bool)
      requires !crashed
      modifies this
      ensures var r := StartRehearsal(old(api), old(m), f);
              Ran(old(api), old(left), r.ws, api, left, crashed) && (!crashed ==> m == r.m && failed == r.failed)
    {
      ghost var a, n := api, left;
      var run := if m.rehearsal.Some? then m.rehearsal.value.run + 1 else 1;
      var key := JobKey.Rehearsal(run);
      ghost var drop, ensure := DropPrevious(m, run), EnsureRun(api, run);
      failed := false;
      RanNothing(a, n);
      if m.rehearsal.Some? && m.rehearsal.value.job.Some? && m.rehearsal.value.job.value != run {
        if f.AtDelete? {
          m := RehearsalNotStarted(m);
          return true;
        }
        Land(DeleteJob(JobKey.Rehearsal(m.rehearsal.value.job.value), Foreground));
        if crashed {
          RanCrashed(a, n, drop, api, left, ensure);
          return;
        }
      }
      ghost var b, k := api, left;
      if f.AtEnsure? {
        m := RehearsalNotStarted(m);
        return true;
      }
      RanNothing(b, k);
      DropKeepsKeys(a, n, m, run, b, k);
      if key !in api.jobs {
        Land(CreateJob(key, NewJob(BuiltOther)));
      }
      RanOn(a, n, drop, b, k, ensure, api, left, crashed);
      if crashed {
        return;
      }
      m := m.(rehearsal := Some(RehearsalStatus(true, run, Some(run), InProgress)));
    }

    /** The rehearsal is not requested: cancel it, and re-arm once its pod has ended. */
    method Unrequested(o: Obs)
      requires !crashed && !api.spec.rehearsal && forall u :: u in o.podList <==> u in api.pods
      modifies this
      ensures var r := ReconcileRehearsal(old(api), old(m), o);
              Ran(old(api), old(left), r.ws, api, left, crashed) && (!crashed ==> m == r.m)
    {
      ghost var a, n := api, left;
      RanNothing(a, n);
      if m.rehearsal.None? || !m.rehearsal.value.armed {
        return;
      }
      ghost var c := UnrequestedIs(a, m, o);
      var failed := CancelRun(o, o.fault);
      if crashed || failed || o.fault.AtPods? {
        return;
      }
      PodsStay(a, n, c.ws, api, left);
      var pod := FindPod(o.podList, true, JobKey.Verify);
      if pod {
        return;
      }
      m := m.(rehearsal := Some(m.rehearsal.value.(armed := false)));
    }

    /** reconcileRehearsal: starts and observes a rehearsal beside the running worker. */
    method RehearsalRun(o: Obs)
      requires !crashed && forall u :: u in o.podList <==> u in api.pods
      modifies this
      ensures var r := ReconcileRehearsal(old(api), old(m), o);
              Ran(old(api), old(left), r.ws, api, left, crashed) && (!crashed ==> m == r.m)
    {
      RanNothing(api, left);
      if !api.spec.rehearsal {
        Unrequested(o);
      } else if m.phase == Phase.CuttingOver {
        var _ := CancelRun(o, o.fault);
      } else if m.rehearsal.Some? && m.rehearsal.value.armed {
        m := ObserveRehearsal(api, m, o.fault);
      } else if m.phase != Phase.Streaming && m.phase != Phase.CutoverPending {
      } else if api.spec.automatic {
        m := RehearsalNotStarted(m);
      } else {
        var _ := StartRun(o.fault);
      }
    }

    // ---------------------------------------------------------------- a running worker

    method BlockedByCommits(got: Sampled)
      modifies this`m
      ensures m == ApplyCommitsBlocked(old(m), got)
      ensures !True(old(m), CommitsBlocked) && True(m, CommitsBlocked) ==> got.confirmed
      ensures True(old(m), CommitsBlocked) && !True(m, CommitsBlocked) ==>
                WaitOf(got.sample).Some? && !SyncRepOver(WaitOf(got.sample))
    {
      if got.at == 0 {
        return;
      }
      var blocked := True(m, CommitsBlocked);
      var wait := WaitOf(got.sample);
      if wait.None? {
        if !blocked {
          SetCondition(CommitsBlocked, CondUnknown, SyncRepUnobserved);
        }
      } else if got.confirmed {
        SetCondition(CommitsBlocked, CondTrue, SyncRepWait);
      } else if !SyncRepOver(wait) {
        SetCondition(CommitsBlocked, CondFalse, NoSyncRepWait);
      }
    }

    method StageOf(s: Sample, started: bool)
      modifies this`m
      ensures m == ApplyStage(old(m), s, started)
      ensures TablesEmptySeen(old(m)) ==> TablesEmptySeen(m)
      ensures True(m, CloneCompleted) <==> True(old(m), CloneCompleted)
      ensures m.phase == Phase.Finalizing && old(m).phase != Phase.Finalizing ==> CopySeen(m)
    {
      if started && IsFalse(m.conds, CloneCompleted) && !TablesEmptySeen(m) {
        SetCondition(CloneCompleted, CondFalse, CopyingData);
      }
      if s.copying {
        m := m.(phase := Phase.Cloning);
      } else if s.finalizing && CopySeen(m) {
        m := m.(phase := Phase.Finalizing);
      }
    }

    method ConfirmCopy(counts: Option<Counts>) returns (done: bool)
      modifies this`m
      ensures (m, done) == ConfirmBaseCopy(old(m), counts)
      ensures done ==> True(m, CloneCompleted) && !TablesEmptySeen(m)
      ensures !done ==> TablesEmptySeen(m)
      ensures !done && !TablesEmptySeen(old(m)) ==> counts.Some? && counts.value.done < counts.value.total
      ensures done && TablesEmptySeen(old(m)) ==> counts.Some? && counts.value.done >= counts.value.total
    {
      if counts.Some? && counts.value.done < counts.value.total {
        SetCondition(CloneCompleted, CondFalse, TablesEmptyOnTarget);
        return false;
      }
      if counts.None? && TablesEmptySeen(m) {
        return false;
      }
      SetCondition(CloneCompleted, CondTrue, BaseCopyDone);
      done := true;
    }

    /** What the sample lacks is carried over from the status. */
    static method Carried(st: Sentinel.State, prev: Option<Sentinel.Replication>) returns (rs: Sentinel.Replication)
      ensures rs == CarryForward(st, prev)
    {
      rs := Sentinel.ToStatus(st);
      if prev.Some? {
        if rs.endpos == "" {
          rs := rs.(endpos := prev.value.endpos);
        }
        if rs.replayLSN == "" {
          rs := rs.(replayLSN := prev.value.replayLSN);
        }
        if rs.lag.None? {
          rs := rs.(lag := prev.value.lag);
        }
      }
    }

    /** reconcileFollowRunning: the stream's positions, the latch and the cutover. */
    method FollowRun(o: Obs, cloneDone: bool)
      requires !crashed
      modifies this
      ensures var f := ReconcileFollowRunning(old(api).spec, old(m), o, cloneDone);
              Ran(old(api), old(left), f.ws, api, left, crashed) && (!crashed ==> m == f.m)
    {
      RanNothing(api, left);
      if o.sentinel.None? {
        return;
      }
      var rs := Carried(o.sentinel.value, m.repl);
      m := m.(repl := Some(rs));
      if !cloneDone {
        return;
      }
      var caughtUp := StreamOn(rs);
      CutOver(rs, caughtUp, o.endposAnswer);
    }

    method StreamOn(rs: Sentinel.Replication) returns (caughtUp: bool)
      requires m.repl == Some(rs)
      modifies this`m
      ensures m == StreamStatus(api.spec, old(m), rs) && caughtUp == (Below(api.spec, rs) && LagSeenBelow(old(m)))
      ensures m.repl == Some(rs)
    {
      SetCondition(CondType.Streaming, CondTrue, Replaying);
      m := m.(phase := Phase.Streaming);
      var below := Below(api.spec, rs);
      caughtUp := below && LagSeenBelow(m);
      if caughtUp {
        SetCondition(CaughtUp, CondTrue, LagBelowThreshold);
      } else if below {
        SetCondition(CaughtUp, CondFalse, ConfirmingCatchUp);
      } else {
        SetCondition(CaughtUp, CondFalse, Lagging);
      }
    }

    method CutOver(rs: Sentinel.Replication, caughtUp: bool, answer: Option<string>)
      requires !crashed && m.repl == Some(rs)
      modifies this
      ensures var f := Cutover(old(api).spec, old(m), rs, caughtUp, answer);
              Ran(old(api), old(left), f.ws, api, left, crashed) && (!crashed ==> m == f.m)
    {
      RanNothing(api, left);
      if Sentinel.LSNSet(rs.endpos) {
        m := m.(phase := Phase.CuttingOver);
      } else if CutoverWanted(api.spec, caughtUp) {
        Land(SetEndpos);
        if crashed || answer.None? {
          return;
        }
        if Sentinel.LSNSet(answer.value) {
          m := m.(repl := Some(rs.(endpos := answer.value)));
        }
        m := m.(phase := Phase.CuttingOver);
      } else if caughtUp {
        m := m.(phase := Phase.CutoverPending);
      }
    }

    /** The copy and the stream, before the rehearsal. */
    method Observe(o: Obs)
      requires !crashed
      modifies this
      ensures var f := StreamStep(old(api).spec, old(m), o);
              Ran(old(api), old(left), f.ws, api, left, crashed) && (!crashed ==> m == f.m)
    {
      var judge := Judges(api.spec, m, o);
      var cloneDone := True(m, CloneCompleted);
      var got := if judge then o.now else o.latest;
      BlockedByCommits(got);
      if got.sample.Some? {
        StageOf(got.sample.value, got.copySeen);
      }
      if judge {
        cloneDone := ConfirmCopy(CountsOf(got));
      }
      assert (m, cloneDone) == ObserveCopy(api.spec, old(m), o);
      RanNothing(api, left);
      if api.spec.follow {
        FollowRun(o, cloneDone);
      }
    }

    method DeleteProbes(list: seq<JobKey>)
      requires !crashed
      modifies this`api, this`left, this`crashed
      ensures Ran(old(api), old(left), Deletes(StrayProbes(list), Background), api, left, crashed)
    {
      ghost var a, n := api, left;
      ghost var probes := StrayProbes(list);
      var i := 0;
      ghost var done := 0;
      RanNoDeletes(a, n, probes, Background);
      while i < |list|
        invariant 0 <= i <= |list| && done <= |probes| && !crashed
        invariant probes[done..] == StrayProbes(list[i..])
        invariant Ran(a, n, Deletes(probes[..done], Background), api, left, false)
      {
        ProbesFrom(list, i, probes, done);
        if list[i].Gate? {
          ghost var b, k := api, left;
          Land(DeleteJob(list[i], Background));
          RanDelete(a, n, probes, done, Background, b, k, api, left, crashed);
          if crashed {
            return;
          }
          done := done + 1;
        }
        i := i + 1;
      }
      assert probes[..done] == probes;
    }

    /** Everything an observation does before its status patch. */
    method Watch(o: Obs)
      requires !crashed && forall u :: u in o.podList <==> u in api.pods
      modifies this
      ensures var f := RehearsalStep(old(api), StreamStep(old(api).spec, old(m), o), o);
              Ran(old(api), old(left), f.ws, api, left, crashed) && (!crashed ==> m == f.m)
    {
      ghost var a, n := api, left;
      ghost var s := StreamStep(api.spec, m, o);
      var follow := api.spec.follow;
      Observe(o);
      if !follow {
        return;
      }
      ghost var r := ReconcileRehearsal(a, s.m, o);
      if crashed {
        RanCrashed(a, n, s.ws, api, left, r.ws);
        return;
      }
      ghost var b, k := api, left;
      StreamWrites(a.spec, old(m), o);
      StreamKeepsWorld(a, n, s, b, k, o);
      RehearsalRun(o);
      RanOn(a, n, s.ws, b, k, r.ws, api, left, crashed);
    }

    /** observeRunningJob. */
    method ObserveRun(o: Obs)
      requires !crashed && forall u :: u in o.podList <==> u in api.pods
      modifies this
      ensures Ran(old(api), old(left), ObserveRunningJob(old(api), old(m), o), api, left, crashed)
    {
      ghost var a, n := api, left;
      ghost var f := RehearsalStep(api, StreamStep(api.spec, m, o), o);
      ghost var ds := Deletes(StrayProbes(o.jobList), Background);
      ghost var x := [Patch(EndHold(f.m, GatePassed), false)];
      Watch(o);
      if crashed {
        RanCrashed(a, n, f.ws, api, left, x + ds);
        return;
      }
      ghost var b, k := api, left;
      EndRetryHold(GatePassed);
      UpdateStatus();
      if crashed {
        RanCrashed(b, k, x, api, left, ds);
      } else {
        ghost var c, l := api, left;
        DeleteProbes(o.jobList);
        RanOn(b, k, x, c, l, ds, api, left, crashed);
      }
      RanOn(a, n, f.ws, b, k, x + ds, api, left, crashed);
    }

    // ---------------------------------------------------------------- a failed worker

    /** handleFailedJob. */
    method HandleFailure(o: Obs, j: Job)
      requires !crashed
      modifies this
      ensures Ran(old(api), old(left), HandleFailedJob(old(api), old(m), o, j), api, left, crashed)
    {
      ghost var a, n := api, left;
      ghost var c := CancelRehearsal(api, m, o, NoFault);
      ghost var spec := HandleFailedJob(api, m, o, j);
      var _ := CancelRun(o, NoFault);
      if crashed {
        RanCrashed(a, n, c.ws, api, left, spec[|c.ws|..]);
        assert spec == c.ws + spec[|c.ws|..];
        return;
      }
      RanAll(a, n, c.ws, api, left);
      PodsStay(a, n, c.ws, api, left);
      var tail := FailedTail(api, o, j);
      if tail.None? {
        return;
      }
      var t := tail.value;
      if TerminalCause(t).Some? && !StartsOver(api.spec, t) {
        SetCondition(CloneCompleted, CondFalse, CloneFailed);
        FailMigration(TerminalCause(t).value);
      } else {
        if StartsOver(api.spec, t) {
          SetCondition(CloneCompleted, CondFalse, SnapshotLost);
        }
        m := m.(gate := Some(RetryGate(m.attempts, j.finishedAt, Undecided, t.cloneDone)));
        SetRetryHold(GateProbing);
        m := m.(jobName := None);
      }
      ghost var b, k := api, left;
      UpdateStatus();
      RanOn(a, n, c.ws, b, k, [Patch(m, false)], api, left, crashed);
    }

    // ---------------------------------------------------------------- the retry gate

    /** decide: records the verdict, and fails the Migration in the same patch when the budget is spent. */
    method DecideVerdict(v: Verdict) returns (failed: bool)
      requires !crashed && m.gate.Some?
      modifies this
      ensures var n := Decide(old(api).spec, old(m), v);
              Ran(old(api), old(left), [Patch(n, true)], api, left, crashed) && m == n
      ensures failed == DecideFails(old(api).spec, old(m), v)
      ensures !crashed ==> api == Apply(old(api), Patch(m, true))
    {
      failed := false;
      if v.Counted? && BudgetSpent(api.spec, m) {
        FailSpentBudget();
        failed := true;
      }
      m := m.(gate := Some(m.gate.value.(verdict := v)));
      if v.Exempt? {
        m := m.(exempt := m.exempt + 1);
      }
      PatchStatusLocked();
    }

    /** settleBudget: the patch that must land before a worker starts. */
    method SettleVerdict() returns (failed: bool)
      requires !crashed
      modifies this
      ensures var n := SettleBudget(old(api).spec, old(m));
              Ran(old(api), old(left), [Patch(n, true)], api, left, crashed) && m == n
      ensures failed == BudgetSpent(old(api).spec, old(m))
      ensures !crashed ==> api == Apply(old(api), Patch(m, true))
    {
      failed := false;
      if OnFailurePath(m) && m.gate.value.verdict.Undecided? {
        m := m.(gate := Some(m.gate.value.(verdict := Counted)));
      }
      if BudgetSpent(api.spec, m) {
        FailSpentBudget();
        failed := true;
      }
      PatchStatusLocked();
    }

    method DropProbeAndWait(key: JobKey)
      requires !crashed
      modifies this
      ensures Ran(old(api), old(left), [DeleteJob(key, Background), Patch(Probing(old(api).spec, old(m)), false)],
              api, left, crashed)
    {
      ghost var a, n := api, left;
      ghost var x, y := DeleteJob(key, Background), Patch(Probing(api.spec, m), false);
      assert [x] + [y] == [x, y];
      Land(DeleteJob(key, Background));
      if crashed {
        RanCrashed(a, n, [x], api, left, [y]);
        return;
      }
      ghost var b, k := api, left;
      KeepProbing();
      UpdateStatus();
      RanOn(a, n, [x], b, k, [y], api, left, crashed);
    }

    /** The failed probe stays for one interval, which paces the loop. */
    method HoldOnProbe(o: Obs, key: JobKey, j: Job, current: bool, result: GateLog.Result)
      requires !crashed
      modifies this
      ensures Ran(old(api), old(left), HoldProbe(old(api), old(m), o, key, j, current, result), api, left, crashed)
    {
      if !current {
        DropProbeAndWait(key);
        return;
      }
      ghost var a, n := api, left;
      var found := GateLog.Hold(result, GateInputsFor(api.spec, m));
      var reason := if !o.gateReadable || found.None? then ProbeFailed else found.value;
      SetRetryHold(reason);
      ghost var x, y := DeleteJob(key, Background), Patch(m, false);
      assert [x] + [y] == [x, y] && [] + [y] == [y];
      if j.finishedAt + RETRY_GATE_INTERVAL <= api.clock {
        Land(DeleteJob(key, Background));
        if crashed {
          RanCrashed(a, n, [x], api, left, [y]);
          return;
        }
      }
      ghost var b, k := api, left;
      UpdateStatus();
      if b != a || k != n {
        RanOn(a, n, [x], b, k, [y], api, left, crashed);
      }
    }

    /** judgeProbe: a finished probe passes, or is judged and holds. */
    method JudgeProbeRun(o: Obs, key: JobKey, j: Job) returns (passed: bool)
      requires !crashed
      modifies this
      ensures var g := JudgeProbe(old(api), old(m), o, key, j);
              Ran(old(api), old(left), g.ws, api, left, crashed) &&
              (!crashed ==> passed == g.Cleared? && (passed ==> m == g.m))
    {
      ghost var a, n := api, left;
      RanNothing(a, n);
      passed := false;
      var inputs := GateInputsFor(api.spec, m);
      var current := InputsOf(j) == inputs;
      if j.state.Succeeded? && (!current || api.clock > j.finishedAt + GATE_PASS_FRESHNESS) {
        DropProbeAndWait(key);
        return;
      }
      var result := ReadProbe(o, j);
      if j.state.Succeeded? && o.gateReadable && GateLog.Passed(result, inputs) {
        return true;
      }
      if OnFailurePath(m) && m.gate.value.verdict.Undecided? && result.census.Some? {
        JudgeCensus(o, key, j, current, result);
        return;
      }
      HoldOnProbe(o, key, j, current, result);
    }

    /** The census verdict, and the hold behind it unless it failed the Migration. */
    method JudgeCensus(o: Obs, key: JobKey, j: Job, current: bool, result: GateLog.Result)
      requires !crashed && m.gate.Some? && result.census.Some?
      modifies this
      ensures var w, v := old(api), ExemptionVerdict(result.census.value, old(m).gate.value.failedAt);
              var m1 := Decide(w.spec, old(m), v);
              var rest := if DecideFails(w.spec, old(m), v) then [] else HoldProbe(w, m1, o, key, j, current, result);
              Ran(w, old(left), [Patch(m1, true)] + rest, api, left, crashed)
    {
      ghost var a, n := api, left;
      var failed := DecideVerdict(ExemptionVerdict(result.census.value, m.gate.value.failedAt));
      ghost var x := [Patch(m, true)];
      assert x + [] == x;
      if crashed {
        RanCrashed(a, n, x, api, left, HoldProbe(a, m, o, key, j, current, result));
        return;
      }
      if failed {
        return;
      }
      ghost var b, k := api, left;
      ghost var rest := HoldProbe(b, m, o, key, j, current, result);
      HoldOnProbe(o, key, j, current, result);
      RanOn(a, n, x, b, k, rest, api, left, crashed);
    }

    static method ReadProbe(o: Obs, j: Job) returns (r: GateLog.Result)
      ensures r == ProbeResult(o, j)
    {
      r := GateLog.ParseGateLog(if o.gateReadable then j.log else "");
    }

    /** The gate behind the deadline check: pods, then the probe. */
    method ProbeGateRun(o: Obs, attempt: nat) returns (passed: bool)
      requires !crashed && attempt >= 1 && forall u :: u in o.podList <==> u in api.pods
      modifies this
      ensures var g := ProbeGate(old(api), old(m), o, attempt);
              Ran(old(api), old(left), g.ws, api, left, crashed) &&
              (!crashed ==> passed == g.Cleared? && (passed ==> m == g.m))
    {
      passed := false;
      var pod := FindPod(o.podList, false, Worker(attempt - 1));
      if !pod {
        pod := FindPod(o.podList, true, Worker(attempt - 1));
      }
      if pod {
        SetRetryHold(WorkerPodRemains);
        UpdateStatus();
        return;
      }
      var key := JobKey.Gate(attempt);
      var job := JobAt(api, key);
      if job.None? {
        CreateProbeAndWait(key);
        return;
      }
      if job.value.deleting {
        KeepProbing();
        UpdateStatus();
        return;
      }
      if job.value.state.Running? {
        if o.probeStuck {
          SetRetryHold(ProbeFailed);
        } else {
          KeepProbing();
        }
        UpdateStatus();
        return;
      }
      passed := JudgeProbeRun(o, key, job.value);
    }

    method CreateProbeAndWait(key: JobKey)
      requires !crashed
      modifies this
      ensures Ran(old(api), old(left),
                  [CreateJob(key, NewJob(BuiltGate(GateInputsFor(old(api).spec, old(m))))),
                  Patch(Probing(old(api).spec, old(m)), false)],
                  api, left, crashed)
    {
      ghost var a, n := api, left;
      ghost var x := CreateJob(key, NewJob(BuiltGate(GateInputsFor(api.spec, m))));
      ghost var y := Patch(Probing(api.spec, m), false);
      assert [x] + [y] == [x, y];
      Land(CreateJob(key, NewJob(BuiltGate(GateInputsFor(api.spec, m)))));
      if crashed {
        RanCrashed(a, n, [x], api, left, [y]);
        return;
      }
      ghost var b, k := api, left;
      KeepProbing();
      UpdateStatus();
      RanOn(a, n, [x], b, k, [y], api, left, crashed);
    }

    /** retryGate. */
    method RetryGateRun(o: Obs, attempt: nat) returns (passed: bool)
      requires !crashed && attempt >= 1 && forall u :: u in o.podList <==> u in api.pods
      modifies this
      ensures var g := RetryGatePass(old(api), old(m), o, attempt);
              Ran(old(api), old(left), g.ws, api, left, crashed) &&
              (!crashed ==> passed == g.Cleared? && (passed ==> m == g.m))
    {
      ghost var a, n := api, left;
      if OnFailurePath(m) && VerdictOverdue(m, api.clock) {
        var failed := DecideVerdict(Counted);
        ghost var x := [Patch(m, true)];
        if crashed {
          passed := false;
          RanCrashed(a, n, x, api, left, ProbeGate(Apply(a, x[0]), m, o, attempt).ws);
          return;
        }
        if failed {
          return false;
        }
        ghost var b, k, n1 := api, left, m;
        passed := ProbeGateRun(o, attempt);
        RanOn(a, n, x, b, k, ProbeGate(b, n1, o, attempt).ws, api, left, crashed);
        return;
      }
      passed := ProbeGateRun(o, attempt);
    }

    // ---------------------------------------------------------------- starting an attempt

    /** recordAttempt. */
    method RecordRun()
      requires !crashed
      modifies this
      ensures Ran(old(api), old(left), RecordAttempt(old(m)), api, left, crashed)
    {
      ghost var a, n, m0 := api, left, m;
      var attempt := m.attempts + 1;
      var phase := AttemptPhase(m);
      m := m.(started := true);
      m := m.(attempts := attempt, jobName := Some(attempt));
      m := m.(phase := phase);
      if !True(m, CloneCompleted) {
        SetCondition(CloneCompleted, CondFalse, CloneRunning);
      }
      if attempt > 1 {
        m := m.(gate := None);
        SetCondition(RetryHeld, CondFalse, GatePassed);
      }
      assert m == RecordedStatus(m0);
      ghost var x, y := [Patch(m, false)], [DeleteJob(JobKey.Gate(attempt), Background)];
      assert x + [] == x;
      UpdateStatus();
      if crashed {
        RanCrashed(a, n, x, api, left, y);
        return;
      }
      if attempt > 1 {
        ghost var b, k := api, left;
        Land(DeleteJob(JobKey.Gate(attempt), Background));
        RanOn(a, n, x, b, k, y, api, left, crashed);
      }
    }

    /** The worker Job of the next attempt, and its record. */
    method CreateWorkerRun()
      requires !crashed
      modifies this
      ensures Ran(old(api), old(left), CreateAndRecord(old(api), old(m)), api, left, crashed)
    {
      ghost var a, n := api, left;
      var attempt := m.attempts + 1;
      var job := BuildWorker(api.spec, m, attempt);
      ghost var x, y := [CreateJob(Worker(attempt), job)], RecordAttempt(m);
      Land(CreateJob(Worker(attempt), job));
      if crashed {
        RanCrashed(a, n, x, api, left, y);
        return;
      }
      ghost var b, k := api, left;
      RecordRun();
      RanOn(a, n, x, b, k, y, api, left, crashed);
    }

    /** Behind a cleared gate: the budget, then the worker. */
    method SettleRun()
      requires !crashed
      modifies this
      ensures Ran(old(api), old(left), Settle(old(api), old(m)), api, left, crashed)
    {
      ghost var a, n := api, left;
      ghost var m1 := SettleBudget(api.spec, m);
      ghost var y := if BudgetSpent(api.spec, m) then [] else CreateAndRecord(a, m1);
      assert [Patch(m1, true)] + [] == [Patch(m1, true)];
      var failed := SettleVerdict();
      if crashed {
        RanCrashed(a, n, [Patch(m1, true)], api, left, y);
        return;
      }
      if failed {
        return;
      }
      ghost var b, k := api, left;
      CreateWorkerRun();
      CreateReadsSpec(a, b, m1);
      RanOn(a, n, [Patch(m1, true)], b, k, y, api, left, crashed);
    }

    /** startAttempt. */
    method StartAttemptRun(o: Obs)
      requires !crashed && forall u :: u in o.podList <==> u in api.pods
      modifies this
      ensures Ran(old(api), old(left), StartAttempt(old(api), old(m), o), api, left, crashed)
    {
      var attempt := m.attempts + 1;
      if attempt > 1 && Worker(attempt) in api.jobs {
        RecordRun();
        return;
      }
      if (!OnFailurePath(m) || !m.gate.value.verdict.Undecided?) && BudgetSpent(api.spec, m) {
        FailSpentBudget();
        UpdateStatus();
        return;
      }
      if attempt > 1 {
        GatedRun(o, attempt);
      } else {
        CreateWorkerRun();
      }
    }

    method GatedRun(o: Obs, attempt: nat)
      requires !crashed && attempt >= 1 && forall u :: u in o.podList <==> u in api.pods
      modifies this
      ensures Ran(old(api), old(left), AfterGate(old(api), RetryGatePass(old(api), old(m), o, attempt)), api, left,
              crashed)
    {
      ghost var a, n := api, left;
      ghost var g := RetryGatePass(api, m, o, attempt);
      var passed := RetryGateRun(o, attempt);
      if crashed {
        AfterCrash(a, n, g, api, left);
        return;
      }
      if !passed {
        return;
      }
      ghost var b, k, m1 := api, left, m;
      SettleRun();
      PodsStay(a, n, g.ws, b, k);
      SettleReads(a, b, m1);
      RanOn(a, n, g.ws, b, k, Settle(b, m1), api, left, crashed);
    }

    // ---------------------------------------------------------------- the finish paths

    /** A Job is created and the pass waits for it with the working copy as it is. */
    method CreateAndWait(key: JobKey)
      requires !crashed
      modifies this`api, this`left, this`crashed
      ensures Ran(old(api), old(left), [CreateJob(key, NewJob(BuiltOther)), Patch(m, false)], api, left, crashed)
    {
      ghost var a, n := api, left;
      ghost var x, y := [CreateJob(key, NewJob(BuiltOther))], [Patch(m, false)];
      assert x + y == [CreateJob(key, NewJob(BuiltOther)), Patch(m, false)];
      Land(CreateJob(key, NewJob(BuiltOther)));
      if crashed {
        RanCrashed(a, n, x, api, left, y);
        return;
      }
      ghost var b, k := api, left;
      UpdateStatus();
      RanOn(a, n, x, b, k, y, api, left, crashed);
    }

    /** reownGate. */
    method ReownRun(running: Phase) returns (handled: bool)
      requires !crashed
      modifies this
      ensures StageRan(old(api), old(left), ReownGate(old(api), old(m), running), api, left, crashed, handled, m)
    {
      if !api.spec.reown {
        return false;
      }
      handled := true;
      var job := JobAt(api, JobKey.Reown);
      if job.Some? && !job.value.state.Running? {
        if job.value.state.Succeeded? {
          SetCondition(OwnershipApplied, CondTrue, OwnershipDone);
          return false;
        }
        SetCondition(OwnershipApplied, CondFalse, Reason.OwnershipFailed);
        FailMigration(Reason.OwnershipFailed);
        UpdateStatus();
        return;
      }
      SetCondition(OwnershipApplied, CondUnknown, OwnershipRunning);
      m := m.(phase := running);
      if job.None? {
        CreateAndWait(JobKey.Reown);
      } else {
        UpdateStatus();
      }
    }

    /** The loop of ensureVerification: one compare at a time, results rebuilt from the Jobs. */
    method CompareRun(o: Obs, checks: seq<Check>) returns (handled: bool)
      requires !crashed
      modifies this
      ensures StageRan(old(api), old(left), CompareLoop(old(api), old(m), o, checks), api, left, crashed, handled, m)
    {
      handled := false;
      var i := 0;
      while i < |checks|
        invariant 0 <= i <= |checks| && !crashed && !handled
        invariant api == old(api) && left == old(left)
        invariant CompareLoop(api, m, o, checks[i..]) == CompareLoop(old(api), old(m), o, checks)
      {
        assert checks[i..][0] == checks[i] && checks[i..][1..] == checks[i + 1..];
        var job := JobAt(api, Compare(checks[i]));
        if job.None? {
          handled := true;
          SetCondition(Verified, CondUnknown, VerificationRunning);
          CreateAndWait(Compare(checks[i]));
          return;
        }
        var j := job.value;
        if CompareUnread(api, o, checks[i], j) {
          handled := true;
          RanNothing(api, left);
          return;
        }
        if j.state.Running? {
          handled := true;
          UpdateStatus();
          return;
        }
        m := m.(verification := m.verification + [CheckResult(checks[i], j.state.Succeeded?)]);
        i := i + 1;
      }
      assert checks[i..] == [];
    }

    method VerificationRun(o: Obs) returns (handled: bool)
      requires !crashed
      modifies this
      ensures StageRan(old(api), old(left), EnsureVerification(old(api), old(m), o), api, left, crashed, handled, m)
    {
      var checks := EnabledChecks(api.spec);
      if checks == [] {
        return false;
      }
      m := m.(phase := Phase.Verifying, verification := []);
      handled := CompareRun(o, checks);
      if handled || crashed {
        return;
      }
      m := JudgeCompares(m);
    }

    /** The compares, then Complete. */
    method CompleteRun(o: Obs)
      requires !crashed
      modifies this
      ensures Ran(old(api), old(left), FinishWith(old(api), old(m), o), api, left, crashed)
    {
      var handled := VerificationRun(o);
      if handled || crashed {
        return;
      }
      m := m.(completed := true, phase := Phase.Completed);
      SetCondition(Complete, CondTrue, MigrationSucceeded);
      UpdateStatus();
    }

    method CatalogRun(o: Obs) returns (handled: bool)
      requires !crashed
      modifies this
      ensures StageRan(old(api), old(left), CatalogGate(old(api), old(m), o), api, left, crashed, handled, m)
    {
      if True(m, CloneCompleted) || api.spec.allDatabases || !o.catalogGate {
        return false;
      }
      handled := true;
      var job := JobAt(api, Catalog);
      if job.None? {
        CreateAndWait(Catalog);
      } else if job.value.state.Running? {
        UpdateStatus();
      } else if o.catalogOwed.Some? && o.catalogOwed.value > 0 {
        SetCondition(CloneCompleted, CondFalse, CloneIncomplete);
        FailMigration(CloneIncomplete);
        UpdateStatus();
      } else {
        handled := false;
      }
    }

    /** finishClone. */
    method FinishCloneRun(o: Obs)
      requires !crashed
      modifies this
      ensures Ran(old(api), old(left), FinishClone(old(api), old(m), o), api, left, crashed)
    {
      var handled := CatalogRun(o);
      if handled || crashed {
        return;
      }
      SetCondition(CloneCompleted, CondTrue, CloneSucceeded);
      handled := ReownRun(Phase.Finalizing);
      if handled || crashed {
        return;
      }
      CompleteRun(o);
    }

    /** drainWaitsForRehearsal. */
    method DrainWaitRun(o: Obs) returns (wait: bool)
      requires !crashed && forall u :: u in o.podList <==> u in api.pods
      modifies this`m
      ensures (m, wait) == DrainWaits(api, old(m))
    {
      if True(m, CutoverCompleted) {
        return false;
      }
      wait := FindPod(o.podList, true, JobKey.Verify);
      if !wait {
        if CutoverCompleted in m.conds && m.conds[CutoverCompleted].reason == RehearsalPodRemains {
          m := m.(conds := m.conds - {CutoverCompleted});
        }
        return;
      }
      SetCondition(CutoverCompleted, CondUnknown, RehearsalPodRemains);
    }

    method VerifyRun() returns (handled: bool)
      requires !crashed
      modifies this
      ensures StageRan(old(api), old(left), EnsureVerify(old(api), old(m)), api, left, crashed, handled, m)
    {
      handled := true;
      var job := JobAt(api, JobKey.Verify);
      if job.None? {
        CreateAndWait(JobKey.Verify);
      } else if job.value.state.Failed? {
        SetCondition(CutoverCompleted, CondFalse, DrainIncomplete);
        FailMigration(DrainIncomplete);
        UpdateStatus();
      } else if job.value.state.Running? {
        UpdateStatus();
      } else {
        handled := false;
      }
    }

    method CleanupRun(o: Obs) returns (handled: bool)
      requires !crashed
      modifies this
      ensures StageRan(old(api), old(left), EnsureCleanup(old(api), o, old(m)), api, left, crashed, handled, m)
    {
      handled := true;
      var job := JobAt(api, JobKey.Cleanup);
      if job.None? {
        if o.nsTerminating {
          return false;
        }
        CreateAndWait(JobKey.Cleanup);
      } else if job.value.state.Running? {
        UpdateStatus();
      } else {
        handled := false;
      }
    }

    /** finishFollow, behind the cancel. */
    method DrainRun(o: Obs)
      requires !crashed && forall u :: u in o.podList <==> u in api.pods
      modifies this
      ensures Ran(old(api), old(left), DrainPass(old(api), old(m), o), api, left, crashed)
    {
      var wait := DrainWaitRun(o);
      if wait {
        UpdateStatus();
        return;
      }
      var handled := VerifyRun();
      if handled || crashed {
        return;
      }
      handled := ReownRun(Phase.CuttingOver);
      if handled || crashed {
        return;
      }
      SetCondition(CutoverCompleted, CondTrue, DrainVerified);
      handled := CleanupRun(o);
      if handled || crashed {
        return;
      }
      CompleteRun(o);
    }

    /** finishFollow. */
    method FinishFollowRun(o: Obs)
      requires !crashed && forall u :: u in o.podList <==> u in api.pods
      modifies this
      ensures Ran(old(api), old(left), FinishFollow(old(api), old(m), o), api, left, crashed)
    {
      ghost var a, n := api, left;
      if !TablesEmptySeen(m) {
        SetCondition(CloneCompleted, CondTrue, BaseCopyDone);
      }
      m := m.(phase := Phase.CuttingOver);
      ghost var c := CancelRehearsal(a, m, o, NoFault);
      ghost var y := DrainPass(ApplyAll(a, c.ws), c.m, o);
      var _ := CancelRun(o, NoFault);
      if crashed {
        RanCrashed(a, n, c.ws, api, left, y);
        return;
      }
      PodsStay(a, n, c.ws, api, left);
      ghost var b, k := api, left;
      DrainRun(o);
      RanOn(a, n, c.ws, b, k, y, api, left, crashed);
    }

    // ---------------------------------------------------------------- with no worker to observe

    /** nextAttempt. */
    method NextAttemptRun(o: Obs)
      requires !crashed && forall u :: u in o.podList <==> u in api.pods
      modifies this
      ensures Ran(old(api), old(left), NextAttempt(old(api), old(m), o), api, left, crashed)
    {
      ghost var a, n := api, left;
      ghost var c := CancelRehearsal(a, m, o, NoFault);
      ghost var y := ResumeOrStart(ApplyAll(a, c.ws), c.m, o);
      var _ := CancelRun(o, NoFault);
      if crashed {
        RanCrashed(a, n, c.ws, api, left, y);
        return;
      }
      PodsStay(a, n, c.ws, api, left);
      ghost var b, k := api, left;
      ResumeRun(o);
      RanOn(a, n, c.ws, b, k, y, api, left, crashed);
    }

    method ResumeRun(o: Obs)
      requires !crashed && forall u :: u in o.podList <==> u in api.pods
      modifies this
      ensures Ran(old(api), old(left), ResumeOrStart(old(api), old(m), o), api, left, crashed)
    {
      var handover := api.spec.reown && JobKey.Reown in api.jobs;
      if !api.spec.follow && (handover || True(m, CloneCompleted)) {
        FinishCloneRun(o);
      } else if handover {
        FinishFollowRun(o);
      } else {
        StartAttemptRun(o);
      }
    }

    // ---------------------------------------------------------------- suspended, deleted, terminal

    /** The deletes of a suspend: the recorded worker, the preflight, an unfinished handover. */
    method ParkJobs() returns (reownStopped: bool)
      requires !crashed
      modifies this`api, this`left, this`crashed
      ensures var w := old(api);
              Ran(w, old(left), CancelledWorker(w, m) + (ParkedPreflight(w, m) + ParkedReown(w)), api, left, crashed)
      ensures !crashed ==> reownStopped == ReownUnfinished(old(api))
    {
      ghost var a, n := api, left;
      ghost var x, y, z := CancelledWorker(a, m), ParkedPreflight(a, m), ParkedReown(a);
      reownStopped := false;
      RanNothing(a, n);
      if m.jobName.Some? && Worker(m.jobName.value) in api.jobs {
        Land(DeleteJob(Worker(m.jobName.value), Foreground));
        if crashed {
          RanCrashed(a, n, x, api, left, y + z);
          return;
        }
      }
      ghost var b, k := api, left;
      ParkedWorkerKeeps(a, n, m, b, k);
      RanNothing(b, k);
      if m.attempts == 0 && JobKey.Preflight in api.jobs {
        Land(DeleteJob(JobKey.Preflight, Background));
        if crashed {
          RanCrashed(b, k, y, api, left, z);
          RanOn(a, n, x, b, k, y + z, api, left, true);
          return;
        }
      }
      ghost var c, l := api, left;
      ParkedPreflightKeeps(a, m, b, k, c, l);
      RanNothing(c, l);
      if ReownUnfinished(api) {
        reownStopped := true;
        Land(DeleteJob(JobKey.Reown, Foreground));
      }
      RanOn(b, k, y, c, l, z, api, left, crashed);
      RanOn(a, n, x, b, k, y + z, api, left, crashed);
    }

    method SuspendWith()
      requires !crashed
      modifies this
      ensures Ran(old(api), old(left), SuspendWrites(old(api), old(m)), api, left, crashed)
    {
      ghost var a, n, m0 := api, left, m;
      ghost var x, y, z := CancelledWorker(a, m), ParkedPreflight(a, m), ParkedReown(a);
      ghost var u := [DeleteJob(JobKey.Gate(m.attempts + 1), Background)];
      ghost var v := [Patch(SuspendedStatus(a, m), false)];
      var stopped := ParkJobs();
      SuspendParts(a, m0);
      if crashed {
        RanCrashed(a, n, x + (y + z), api, left, u + v);
        return;
      }
      ghost var b, k := api, left;
      var next := m.attempts + 1;
      Land(DeleteJob(JobKey.Gate(next), Background));
      if crashed {
        RanCrashed(b, k, u, api, left, v);
        RanOn(a, n, x + (y + z), b, k, u + v, api, left, true);
        return;
      }
      ghost var c, l := api, left;
      m := m.(jobName := None);
      if stopped {
        SetCondition(OwnershipApplied, CondUnknown, OwnershipSuspended);
      }
      EndRetryHold(HoldSuspended);
      m := m.(phase := Phase.Suspended);
      UpdateStatus();
      RanOn(b, k, u, c, l, v, api, left, crashed);
      RanOn(a, n, x + (y + z), b, k, u + v, api, left, crashed);
    }

    /** reconcileSuspended. */
    method SuspendRun(o: Obs)
      requires !crashed
      modifies this
      ensures Ran(old(api), old(left), ReconcileSuspended(old(api), old(m), o), api, left, crashed)
    {
      ghost var a, n := api, left;
      ghost var c := CancelRehearsal(a, m, o, NoFault);
      ghost var y := SuspendWrites(ApplyAll(a, c.ws), c.m);
      var _ := CancelRun(o, NoFault);
      if crashed {
        RanCrashed(a, n, c.ws, api, left, y);
        return;
      }
      RanAll(a, n, c.ws, api, left);
      ghost var b, k := api, left;
      SuspendWith();
      RanOn(a, n, c.ws, b, k, y, api, left, crashed);
    }

    method DeleteWith(o: Obs)
      requires !crashed && m.attempts == api.status.attempts && m.jobName == api.status.jobName
      modifies this`api, this`left, this`crashed
      ensures Ran(old(api), old(left), DeletionWrites(old(api), o), api, left, crashed)
    {
      RanNothing(api, left);
      if !api.finalizer {
        return;
      }
      if m.attempts > 0 {
        if m.jobName.Some? && Worker(m.jobName.value) in api.jobs && !api.jobs[Worker(m.jobName.value)].deleting {
          Land(DeleteJob(Worker(m.jobName.value), Foreground));
          return;
        }
        var job := JobAt(api, JobKey.Cleanup);
        if job.None? && !o.nsTerminating {
          Land(CreateJob(JobKey.Cleanup, NewJob(BuiltOther)));
          return;
        }
        if job.Some? && job.value.state.Running? {
          return;
        }
      }
      Land(RemoveFinalizer);
    }

    /** reconcileDeletion. */
    method DeletionRun(o: Obs)
      requires !crashed && m == api.status
      modifies this
      ensures Ran(old(api), old(left), ReconcileDeletion(old(api), o), api, left, crashed)
    {
      ghost var a, n := api, left;
      ghost var c := CancelRehearsal(a, m, o, NoFault);
      ghost var y := DeletionWrites(ApplyAll(a, c.ws), o);
      CancelKeepsAttempts(a, m, o);
      var _ := CancelRun(o, NoFault);
      if crashed {
        RanCrashed(a, n, c.ws, api, left, y);
        return;
      }
      RanAll(a, n, c.ws, api, left);
      ghost var b, k := api, left;
      DeleteWith(o);
      RanOn(a, n, c.ws, b, k, y, api, left, crashed);
    }

    method TerminalRun(o: Obs)
      requires !crashed && m == api.status
      modifies this
      ensures Ran(old(api), old(left), TerminalPass(old(api), o), api, left, crashed)
    {
      ghost var a, n := api, left;
      RanNothing(a, n);
      if m.rehearsal.None? || !m.rehearsal.value.outcome.InProgress? {
        return;
      }
      ghost var c := CancelRehearsal(a, m, o, NoFault);
      var _ := CancelRun(o, NoFault);
      if crashed {
        RanCrashed(a, n, c.ws, api, left, [Patch(c.m, false)]);
        return;
      }
      ghost var b, k := api, left;
      UpdateStatus();
      RanOn(a, n, c.ws, b, k, [Patch(c.m, false)], api, left, crashed);
    }

    // ---------------------------------------------------------------- a validated Migration

    /** preflightGate: only the first attempt waits for it. */
    method PreflightRun(o: Obs) returns (handled: bool)
      requires !crashed
      modifies this
      ensures StageRan(old(api), old(left), PreflightGate(old(api), old(m), o), api, left, crashed, handled, m)
    {
      if m.attempts != 0 {
        return false;
      }
      handled := true;
      var job := JobAt(api, JobKey.Preflight);
      if job.Some? && !job.value.state.Running? {
        if job.value.state.Succeeded? {
          return false;
        }
        if o.preflightLog.Unreadable? && api.clock < job.value.finishedAt + FAILED_LOG_GRACE {
          RanNothing(api, left);
          return;
        }
        SetCondition(Validated, CondFalse, Reason.PreflightFailed);
        FailMigration(Reason.PreflightFailed);
        UpdateStatus();
        return;
      }
      SetCondition(Validated, CondUnknown, PreflightRunning);
      m := m.(phase := Phase.Validating);
      if job.None? {
        CreateAndWait(JobKey.Preflight);
      } else {
        UpdateStatus();
      }
    }

    method WorkerRun(o: Obs)
      requires !crashed && forall u :: u in o.podList <==> u in api.pods
      modifies this
      ensures Ran(old(api), old(left), WorkerPass(old(api), old(m), o), api, left, crashed)
    {
      if m.jobName.None? || Worker(m.jobName.value) !in api.jobs {
        NextAttemptRun(o);
        return;
      }
      var j := api.jobs[Worker(m.jobName.value)];
      if j.state.Running? {
        ObserveRun(o);
      } else if j.state.Failed? {
        HandleFailure(o, j);
      } else {
        if CommitsBlocked in m.conds {
          SetCondition(CommitsBlocked, CondFalse, WorkerSucceeded);
        }
        if api.spec.follow {
          FinishFollowRun(o);
        } else {
          FinishCloneRun(o);
        }
      }
    }

    method ActiveRun(o: Obs)
      requires !crashed && m == api.status && forall u :: u in o.podList <==> u in api.pods
      modifies this
      ensures Ran(old(api), old(left), ActivePass(old(api), o), api, left, crashed)
    {
      var handled := PreflightRun(o);
      if handled || crashed {
        return;
      }
      SetCondition(Validated, CondTrue, SpecValid);
      if api.spec.dryRun {
        m := m.(completed := true, phase := Phase.Completed);
        SetCondition(Complete, CondTrue, DryRunSucceeded);
        UpdateStatus();
        return;
      }
      WorkerRun(o);
    }

    /** reconcile: whatever the pass reads and wherever it crashes, the writes that landed are the
        first of Pass. */
    method Reconcile(o: Obs)
      requires !crashed && m == api.status && ValidObs(api, o)
      modifies this
      ensures api == ApplyAll(old(api), Prefix(Pass(old(api), o), old(left)))
      ensures crashed <==> |Pass(old(api), o)| > old(left)
      ensures api == Next(old(api), PassL(o, old(left)))
    {
      RanNothing(api, left);
      if api.gone {
        return;
      }
      if api.deleting {
        DeletionRun(o);
        return;
      }
      if Terminal(m) {
        TerminalRun(o);
        return;
      }
      if m == EMPTY_STATUS {
        m := m.(phase := Phase.Pending);
        PatchStatusLocked();
        return;
      }
      if api.spec.suspend {
        SuspendRun(o);
        return;
      }
      if !ValidSpec(api.spec) {
        SetCondition(Validated, CondFalse, Reason.InvalidSpec);
        FailMigration(Reason.InvalidSpec);
        UpdateStatus();
        return;
      }
      EnsureFinalizerAndRun(o);
    }

    /** ensureFinalizer: a live migration gets its finalizer before any worker. */
    method EnsureFinalizerAndRun(o: Obs)
      requires !crashed && m == api.status && ValidObs(api, o)
      modifies this
      ensures var w := old(api);
              Ran(w, old(left),
                  if w.spec.follow && !w.finalizer then [AddFinalizer] + ActivePass(Apply(w, AddFinalizer), o)
                  else ActivePass(w, o),
                  api, left, crashed)
    {
      if api.spec.follow && !api.finalizer {
        ghost var a, n := api, left;
        ghost var y := ActivePass(Apply(a, AddFinalizer), o);
        Land(AddFinalizer);
        if crashed {
          RanCrashed(a, n, [AddFinalizer], api, left, y);
          return;
        }
        ghost var b, k := api, left;
        ActiveRun(o);
        RanOn(a, n, [AddFinalizer], b, k, y, api, left, crashed);
        return;
      }
      ActiveRun(o);
    }
  }
}
