/** Every write of every pass obeys the rules and keeps the invariant: the branches up to the retry. */
module PassRules {
  import opened Text
  import opened Conditions
  import opened Samples
  import opened Cluster
  import opened Passes
  import opened Runs
  import opened Invariant
  import opened Steps
  import opened Rules
  import GateLog
  import Sentinel

  type WriteRule = (World, Write) -> bool

  lemma LawfulOne(p: WriteRule, w: World, o: Obs, x: Write)
    requires Covers(p, o) && Inv(w) && Allowed(w, o, x) && Inv(Apply(w, x))
    ensures Every(p, w, [x])
  {
    assert Lawful(w, o, x);
    EveryOne(p, w, x);
  }

  lemma EveryPair(p: WriteRule, w: World, x: Write, y: Write)
    requires Every(p, w, [x]) && Every(p, Apply(w, x), [y])
    ensures Every(p, w, [x, y])
  {
    assert ApplyAll(w, [x]) == Apply(w, x) by { assert [x][1..] == []; }
    EveryConcat(p, w, [x], [y]);
    assert [x] + [y] == [x, y];
  }

  // ------------------------------------------------------------------ patches that touch no rule

  /** Nothing a rule or the bookkeeping reads differs, the retry hold and the phase aside. */
  predicate Neutral(m: Status, n: Status) {
    && m.attempts == n.attempts && m.exempt == n.exempt && m.gate == n.gate && m.jobName == n.jobName &&
       m.repl == n.repl
    && Armed(m) == Armed(n) && LastRun(m) == LastRun(n)
    && SameCond(m, n, CloneCompleted) && SameCond(m, n, CaughtUp) && SameCond(m, n, CommitsBlocked)
    && SameCond(m, n, Complete) && SameCond(m, n, CondType.Failed)
  }

  predicate Near(m: Status, n: Status) {
    Neutral(m, n) && SameCond(m, n, RetryHeld) && SameCond(m, n, CondType.Streaming) &&
    SameCond(m, n, CutoverCompleted) &&
    m.phase == n.phase
  }

  lemma NeutralRule(v: World, o: Obs, n: Status, locked: bool)
    requires !v.deleting && !v.gone && Neutral(v.status, n) && !Acting(v, o)
    ensures PatchRule(v, o, n, locked)
  {
  }

  lemma NeutralInv(w: World, n: Status)
    requires Inv(w) && Neutral(w.status, n) && HoldMeans(w.(status := n))
    ensures Inv(w.(status := n))
  {
    PatchKeepsBook(w, n);
  }

  lemma NeutralPatch(p: WriteRule, w: World, o: Obs, n: Status, locked: bool)
    requires Covers(p, o) && Inv(w) && !w.deleting && !w.gone && Neutral(w.status, n) && !Acting(w, o) &&
             HoldMeans(w.(status := n))
    ensures Every(p, w, [Patch(n, locked)])
  {
    NeutralRule(w, o, n, locked);
    NeutralInv(w, n);
    LawfulOne(p, w, o, Patch(n, locked));
  }

  // ------------------------------------------------------------------ canceling a rehearsal

  /** Only rehearsal Jobs differ, and only in that more of them are being deleted. */
  ghost predicate Winding(w: World, v: World) {
    && v == w.(jobs := v.jobs)
    && (forall k :: k in v.jobs <==> k in w.jobs)
    && (forall k :: k in w.jobs && !k.Rehearsal? ==> v.jobs[k] == w.jobs[k])
    && (forall k :: k in w.jobs && k.Rehearsal? ==> v.jobs[k] == w.jobs[k] || v.jobs[k] == w.jobs[k].(deleting := true))
  }

  predicate RehearsalDeletes(ws: seq<Write>) {
    forall x :: x in ws ==> x.DeleteJob? && x.key.Rehearsal? && x.policy.Foreground?
  }

  lemma WindingStep(w: World, v: World, k: JobKey)
    requires Winding(w, v) && k.Rehearsal?
    ensures Winding(w, Apply(v, DeleteJob(k, Foreground)))
  {
  }

  lemma {:induction false} DeletesWind(w: World, v: World, ws: seq<Write>)
    requires Winding(w, v) && RehearsalDeletes(ws)
    ensures Winding(w, ApplyAll(v, ws))
    decreases |ws|
  {
    if ws != [] {
      assert ws[0] in ws;
      WindingStep(w, v, ws[0].key);
      DeletesWind(w, Apply(v, ws[0]), ws[1..]);
    }
  }

  lemma {:induction false} DeletesLawful(p: WriteRule, w: World, o: Obs, ws: seq<Write>)
    requires Covers(p, o) && Inv(w) && RehearsalDeletes(ws)
    ensures Every(p, w, ws) && Inv(ApplyAll(w, ws))
    decreases |ws|
  {
    if ws != [] {
      var x := ws[0];
      assert x in ws;
      DeleteKeeps(w, x.key, x.policy);
      assert Lawful(w, o, x);
      DeletesLawful(p, Apply(w, x), o, ws[1..]);
    }
  }

  lemma {:induction false} DeletedIsDeleting(w: World, ks: seq<JobKey>, k: JobKey)
    requires k in w.jobs && (k in ks || w.jobs[k].deleting)
    ensures k in ApplyAll(w, Deletes(ks, Foreground)).jobs && ApplyAll(w, Deletes(ks, Foreground)).jobs[k].deleting
    decreases |ks|
  {
    var ws := Deletes(ks, Foreground);
    if ks != [] {
      assert ws[1..] == Deletes(ks[1..], Foreground);
      assert k in ks ==> k == ks[0] || k in ks[1..];
      DeletedIsDeleting(Apply(w, ws[0]), ks[1..], k);
    }
  }

  /** What a cancel leaves in the working copy: the outcome, and nothing else. */
  predicate OnlyOutcome(m: Status, n: Status) {
    n == m || (m.rehearsal.Some? && n.rehearsal.Some? &&
               n == m.(rehearsal := Some(m.rehearsal.value.(outcome := n.rehearsal.value.outcome))))
  }

  /** The strays of a list are its running rehearsal Jobs that nothing deletes yet. */
  lemma {:induction false} StraysAre(jobs: map<JobKey, Job>, list: seq<JobKey>)
    ensures forall k :: k in Strays(jobs, list) <==> k in list && IsStray(jobs, k)
  {
    if list != [] {
      StraysAre(jobs, list[1..]);
      assert forall k :: k in list <==> k == list[0] || k in list[1..];
    }
  }

  lemma RecordedCancel(w: World, m: Status, f: Fault)
    ensures var c := CancelRecordedRehearsal(w, m, f);
            RehearsalDeletes(c.ws) && OnlyOutcome(m, c.m) && |c.ws| <= 1
  {
  }

  lemma CancelShape(w: World, m: Status, o: Obs, f: Fault)
    ensures var c := CancelRehearsal(w, m, o, f);
            RehearsalDeletes(c.ws) && OnlyOutcome(m, c.m) && Winding(w, ApplyAll(w, c.ws))
  {
    RecordedCancel(w, m, f);
    StraysAre(ApplyAll(w, CancelRecordedRehearsal(w, m, f).ws).jobs, o.jobList);
    var ws := CancelRehearsal(w, m, o, f).ws;
    assert Winding(w, w);
    DeletesWind(w, w, ws);
  }

  lemma StraysStop(v: World, o: Obs, k: JobKey)
    requires k in v.jobs && k.Rehearsal? && k in o.jobList
    ensures var u := ApplyAll(v, Deletes(Strays(v.jobs, o.jobList), Foreground));
            k in u.jobs && !Startable(u.jobs[k])
  {
    var ws := Deletes(Strays(v.jobs, o.jobList), Foreground);
    StraysAre(v.jobs, o.jobList);
    assert Winding(v, v);
    DeletesWind(v, v, ws);
    if IsStray(v.jobs, k) {
      DeletedIsDeleting(v, Strays(v.jobs, o.jobList), k);
    }
  }

  /** After a cancel that met no fault, no rehearsal Job can start a pod any more. */
  lemma CancelStops(w: World, m: Status, o: Obs, f: Fault, k: nat)
    requires ValidObs(w, o) && !CancelRehearsal(w, m, o, f).failed
    requires JobKey.Rehearsal(k) in w.jobs
    ensures var v := ApplyAll(w, CancelRehearsal(w, m, o, f).ws);
            JobKey.Rehearsal(k) in v.jobs && !Startable(v.jobs[JobKey.Rehearsal(k)])
  {
    var c := CancelRecordedRehearsal(w, m, f);
    RecordedCancel(w, m, f);
    assert Winding(w, w);
    DeletesWind(w, w, c.ws);
    var v := ApplyAll(w, c.ws);
    ApplyAllConcat(w, c.ws, Deletes(Strays(v.jobs, o.jobList), Foreground));
    StraysStop(v, o, JobKey.Rehearsal(k));
  }

  // ------------------------------------------------------------------ failing the Migration

  /** A failed status: the bookkeeping and the positions stay, and no hold is left. */
  predicate FailShape(m: Status, n: Status) {
    && m.attempts == n.attempts && m.exempt == n.exempt && m.gate == n.gate && m.jobName == n.jobName &&
       m.repl == n.repl
    && Armed(m) == Armed(n) && LastRun(m) == LastRun(n)
    && SameCond(m, n, CaughtUp) && SameCond(m, n, Complete)
    && True(n, CondType.Failed) && n.phase == Phase.Failed && !True(n, RetryHeld)
  }

  lemma EndHoldLeaves(m: Status, r: Reason)
    ensures EndHold(m, r) == m.(conds := EndHold(m, r).conds) && !True(EndHold(m, r), RetryHeld)
    ensures forall t :: t != RetryHeld ==> SameCond(m, EndHold(m, r), t)
  {
  }

  lemma FailLeaves(m: Status, r: Reason)
    ensures FailShape(m, Fail(m, r)) && Fail(m, r).conds[CondType.Failed].reason == r
    ensures SameCond(m, Fail(m, r), CloneCompleted) && SameCond(m, Fail(m, r), CommitsBlocked)
  {
    var m1 := SetCond(m.(phase := Phase.Failed), CondType.Failed, CondTrue, r);
    EndHoldLeaves(m1, HoldMigrationFailed);
    assert forall t :: t != CondType.Failed ==> SameCond(m, m1, t);
  }

  lemma FailRule(v: World, o: Obs, n: Status)
    requires !Terminal(v.status) && !Acting(v, o) && FailShape(v.status, n) && FailsRule(v, n)
    requires CopyRule(v, o, n) && StartOverRule(v, o, n) && BlockedRule(v, o, n)
    ensures PatchRule(v, o, n, false)
  {
  }

  lemma FailInv(v: World, n: Status)
    requires Inv(v) && !Terminal(v.status) && FailShape(v.status, n)
    requires CloneOnlyDone(v.(status := n)) ==> Settled(v)
    requires SnapshotLostSeen(n) ==> n.gate.Some?
    ensures Inv(v.(status := n))
  {
    PatchKeepsBook(v, n);
  }

  lemma FailPatch(p: WriteRule, v: World, o: Obs, n: Status)
    requires Covers(p, o) && Inv(v) && !Terminal(v.status) && !Acting(v, o) && FailShape(v.status, n) && FailsRule(v, n)
    requires CopyRule(v, o, n) && StartOverRule(v, o, n) && BlockedRule(v, o, n)
    requires CloneOnlyDone(v.(status := n)) ==> Settled(v)
    requires SnapshotLostSeen(n) ==> n.gate.Some?
    ensures Every(p, v, [Patch(n, false)])
  {
    FailRule(v, o, n);
    FailInv(v, n);
    LawfulOne(p, v, o, Patch(n, false));
  }
}
