/** When a pass reaches the start of an attempt or of a rehearsal run: the guards, read off the world
    and the pass's readings, and the Job it then leaves. */
module Starts {
  import opened Text
  import opened Conditions
  import opened Samples
  import opened Cluster
  import opened Passes
  import opened Runs
  import opened Invariant
  import opened Rules
  import opened PassRules
  import opened GateRules
  import opened ObserveRules
  import GateLog

  // ------------------------------------------------------------------ an attempt

  /** Budget is left, nothing of the finish path is there, and the first attempt's preflight or the
      retry's gate has cleared it, unless its worker exists already. */
  ghost predicate MayStart(w: World, o: Obs) {
    var n := w.status.attempts + 1;
    && Live(w) && w.status != EMPTY_STATUS && !w.spec.dryRun && RecordedWorker(w).None?
    && JobKey.Reown !in w.jobs && !CloneOnlyDone(w) && !BudgetSpent(w.spec, w.status)
    && (if n == 1 then JobIs(w, JobKey.Preflight, Succeeded)
        else Worker(n) in w.jobs || (GateCleared(w, o, n) && !w.jobs[JobKey.Gate(n)].deleting))
  }

  /** GateCleared, for the working copy. */
  ghost predicate Opened(u: World, m: Status, o: Obs) {
    var k := JobKey.Gate(m.attempts + 1);
    && m.attempts >= 1 && !HasPod(u, Worker(m.attempts)) && !RehearsalPod(u)
    && JobIs(u, k, Succeeded) && !u.jobs[k].deleting
    && u.clock <= u.jobs[k].finishedAt + GATE_PASS_FRESHNESS
    && InputsOf(u.jobs[k]) == GateInputsFor(u.spec, m)
    && o.gateReadable && GateLog.Passed(GateLog.Parse(u.jobs[k].log), GateInputsFor(u.spec, m))
  }

  lemma ProbeOpens(u: World, m: Status, o: Obs) returns (g: GateStep)
    requires Opened(u, m, o)
    ensures g == ProbeGate(u, m, o, m.attempts + 1) && g == Cleared(m, [])
  {
    g := ProbeGate(u, m, o, m.attempts + 1);
  }

  lemma GateOpens(u: World, m: Status, o: Obs) returns (g: GateStep)
    requires Opened(u, m, o) && !BudgetSpent(u.spec, m)
    ensures g == RetryGatePass(u, m, o, m.attempts + 1) && g.Cleared?
    ensures g.m.attempts == m.attempts && !BudgetSpent(u.spec, g.m)
  {
    g := RetryGatePass(u, m, o, m.attempts + 1);
    if OnFailurePath(m) && VerdictOverdue(m, u.clock) {
      var n := Decide(u.spec, m, Counted);
      var x := Patch(n, true);
      assert GateInputsFor(u.spec, n) == GateInputsFor(u.spec, m);
      var g1 := ProbeOpens(Apply(u, x), n, o);
      assert g == Behind([x], g1);
    } else {
      var g1 := ProbeOpens(u, m, o);
    }
  }

  /** The writes hold a create of the Job. */
  ghost predicate Makes(ws: seq<Write>, k: JobKey) {
    exists i :: 0 <= i < |ws| && ws[i].CreateJob? && ws[i].key == k
  }

  lemma MakesOn(a: seq<Write>, b: seq<Write>, k: JobKey)
    requires Makes(b, k)
    ensures Makes(a + b, k)
  {
    var i :| 0 <= i < |b| && b[i].CreateJob? && b[i].key == k;
    assert (a + b)[|a| + i] == b[i];
  }

  lemma RecordMakes(u: World, m: Status) returns (ws: seq<Write>)
    ensures ws == CreateAndRecord(u, m) && Makes(ws, Worker(m.attempts + 1))
  {
    ws := CreateAndRecord(u, m);
    assert ws[0].key == Worker(m.attempts + 1);
  }

  lemma SettleMakes(u: World, m: Status) returns (ws: seq<Write>)
    requires !BudgetSpent(u.spec, m)
    ensures ws == Settle(u, m) && Makes(ws, Worker(m.attempts + 1))
  {
    var n := SettleBudget(u.spec, m);
    var xs := RecordMakes(u, n);
    MakesOn([Patch(n, true)], xs, Worker(m.attempts + 1));
    ws := [Patch(n, true)] + xs;
  }

  lemma ClearedMakes(u: World, g: GateStep) returns (ws: seq<Write>)
    requires g.Cleared? && !BudgetSpent(u.spec, g.m)
    ensures ws == AfterGate(u, g) && Makes(ws, Worker(g.m.attempts + 1))
  {
    var xs := SettleMakes(u, g.m);
    MakesOn(g.ws, xs, Worker(g.m.attempts + 1));
    ws := g.ws + xs;
  }

  lemma StartIs(u: World, m: Status, o: Obs)
    requires !BudgetSpent(u.spec, m) && (m.attempts >= 1 ==> Worker(m.attempts + 1) !in u.jobs)
    ensures StartAttempt(u, m, o) ==
              if m.attempts == 0 then CreateAndRecord(u, m) else AfterGate(u, RetryGatePass(u, m, o, m.attempts + 1))
  {
  }

  lemma StartMakes(u: World, m: Status, o: Obs) returns (ws: seq<Write>)
    requires !BudgetSpent(u.spec, m)
    requires m.attempts == 0 || (Worker(m.attempts + 1) !in u.jobs && Opened(u, m, o))
    ensures ws == StartAttempt(u, m, o) && Makes(ws, Worker(m.attempts + 1))
  {
    StartIs(u, m, o);
    if m.attempts == 0 {
      ws := RecordMakes(u, m);
    } else {
      var g := GateOpens(u, m, o);
      ws := ClearedMakes(u, g);
    }
  }

  /** Without a Job of the attempt, a retry that may start is behind an open gate; a cancel before it
      and the working copy leave that as it is. */
  lemma StillOpened(w: World, u: World, m: Status, o: Obs)
    requires MayStart(w, o) && Winding(w, u) && w.status.attempts >= 1 && Worker(w.status.attempts + 1) !in w.jobs
    requires m.attempts == w.status.attempts && GateInputsFor(w.spec, m) == GateInputsFor(w.spec, w.status)
    ensures Opened(u, m, o)
  {
  }

  lemma CanceledFirst(w: World, m: Status, o: Obs) returns (c: Step, u: World)
    ensures c == CancelRehearsal(w, m, o, NoFault) && u == ApplyAll(w, c.ws) && Winding(w, u) && OnlyOutcome(m, c.m)
  {
    c := CancelRehearsal(w, m, o, NoFault);
    u := ApplyAll(w, c.ws);
    CancelShape(w, m, o, NoFault);
  }

  lemma PassStarts(w: World, o: Obs)
    requires MayStart(w, o)
    ensures Pass(w, o) == NextAttempt(w, SetCond(w.status, Validated, CondTrue, SpecValid), o)
  {
  }

  /** The working copy of the retry reads like the status. */
  predicate ReadsAs(s: Spec, m: Status, n: Status) {
    m.attempts == n.attempts && m.exempt == n.exempt && GateInputsFor(s, m) == GateInputsFor(s, n) &&
    (True(m, CloneCompleted) <==> True(n, CloneCompleted))
  }

  lemma PreparedReads(s: Spec, m: Status, n: Status)
    requires OnlyOutcome(SetCond(m, Validated, CondTrue, SpecValid), n)
    ensures ReadsAs(s, n, m)
  {
    var v := SetCond(m, Validated, CondTrue, SpecValid);
    assert forall t :: t != Validated ==> SameCond(m, v, t);
    SameInputs(s, m, v);
  }

  lemma Resumes(w: World, u: World, m: Status, o: Obs)
    requires MayStart(w, o) && Winding(w, u) && ReadsAs(w.spec, m, w.status)
    ensures ResumeOrStart(u, m, o) == StartAttempt(u, m, o)
  {
  }

  lemma BudgetLeft(w: World, u: World, m: Status, o: Obs)
    requires MayStart(w, o) && Winding(w, u) && ReadsAs(w.spec, m, w.status) && Worker(m.attempts + 1) !in w.jobs
    ensures !BudgetSpent(u.spec, m) && (m.attempts == 0 || (Worker(m.attempts + 1) !in u.jobs && Opened(u, m, o)))
  {
    if m.attempts >= 1 {
      StillOpened(w, u, m, o);
    }
  }

  lemma RetryMakes(w: World, u: World, m: Status, o: Obs) returns (ws: seq<Write>)
    requires MayStart(w, o) && Winding(w, u) && ReadsAs(w.spec, m, w.status) && Worker(m.attempts + 1) !in w.jobs
    ensures ws == ResumeOrStart(u, m, o) && Makes(ws, Worker(m.attempts + 1))
  {
    BudgetLeft(w, u, m, o);
    Resumes(w, u, m, o);
    ws := StartMakes(u, m, o);
  }

  lemma NextMakes(w: World, o: Obs) returns (ws: seq<Write>)
    requires MayStart(w, o) && Worker(w.status.attempts + 1) !in w.jobs
    ensures ws == NextAttempt(w, SetCond(w.status, Validated, CondTrue, SpecValid), o)
    ensures Makes(ws, Worker(w.status.attempts + 1))
  {
    var c, u := CanceledFirst(w, SetCond(w.status, Validated, CondTrue, SpecValid), o);
    PreparedReads(w.spec, w.status, c.m);
    var s := RetryMakes(w, u, c.m, o);
    MakesOn(c.ws, s, Worker(w.status.attempts + 1));
    ws := c.ws + s;
  }

  /** A pass that may start the next attempt creates its Job, unless it adopts one that exists. */
  lemma StartsMake(w: World, o: Obs) returns (ws: seq<Write>)
    requires MayStart(w, o) && Worker(w.status.attempts + 1) !in w.jobs
    ensures ws == Pass(w, o) && Makes(ws, Worker(w.status.attempts + 1))
  {
    ws := NextMakes(w, o);
    PassStarts(w, o);
  }

  // ------------------------------------------------------------------ a rehearsal run

  /** A rehearsal is asked for, none is armed, the stream runs and no API call of the step fails. */
  predicate MayRehearse(w: World, o: Obs) {
    && Live(w) && w.status != EMPTY_STATUS && !w.spec.dryRun && WorkerIs(w, Running) && w.status.attempts >= 1
    && w.spec.follow && w.spec.rehearsal && !w.spec.automatic && !Armed(w.status) && o.fault == NoFault
    && Streams(StreamStep(w.spec, SetCond(w.status, Validated, CondTrue, SpecValid), o).m)
  }

  predicate Streams(m: Status) { m.phase == Phase.Streaming || m.phase == Phase.CutoverPending }

  lemma PassObserves(w: World, o: Obs)
    requires MayRehearse(w, o)
    ensures Pass(w, o) == ObserveRunningJob(w, SetCond(w.status, Validated, CondTrue, SpecValid), o)
  {
  }

  lemma RunMade(w: World, m: Status, o: Obs) returns (r: Step)
    requires w.spec.rehearsal && !w.spec.automatic && o.fault == NoFault && Streams(m) && !Armed(m)
    requires JobKey.Rehearsal(OpenRun(m)) !in w.jobs
    ensures r == ReconcileRehearsal(w, m, o) && Makes(r.ws, JobKey.Rehearsal(OpenRun(m)))
  {
    r := ReconcileRehearsal(w, m, o);
    var drop := DropPrevious(m, OpenRun(m));
    var x := EnsureRun(w, OpenRun(m));
    assert x[0].key == JobKey.Rehearsal(OpenRun(m));
    MakesOn(drop, x, JobKey.Rehearsal(OpenRun(m)));
    assert r.ws == drop + x;
  }

  lemma MakesAhead(a: seq<Write>, b: seq<Write>, k: JobKey)
    requires Makes(a, k)
    ensures Makes(a + b, k)
  {
    var i :| 0 <= i < |a| && a[i].CreateJob? && a[i].key == k;
    assert (a + b)[i] == a[i];
  }

  lemma ObservationMakes(w: World, m: Status, o: Obs, f: Step) returns (ws: seq<Write>)
    requires f == StreamStep(w.spec, m, o) && w.spec.follow
    requires w.spec.rehearsal && !w.spec.automatic && o.fault == NoFault && Streams(f.m) && !Armed(f.m)
    requires JobKey.Rehearsal(OpenRun(f.m)) !in w.jobs
    ensures ws == ObserveRunningJob(w, m, o) && Makes(ws, JobKey.Rehearsal(OpenRun(f.m)))
  {
    var k := JobKey.Rehearsal(OpenRun(f.m));
    var r := RunMade(w, f.m, o);
    var rest := [Patch(EndHold(r.m, GatePassed), false)] + Deletes(StrayProbes(o.jobList), Background);
    MakesOn(f.ws, r.ws, k);
    MakesAhead(f.ws + r.ws, rest, k);
    ws := f.ws + r.ws + rest;
  }

  lemma StreamNamed(s: Spec, m: Status, o: Obs) returns (f: Step)
    ensures f == StreamStep(s, m, o) && f.m.rehearsal == m.rehearsal
  {
    StreamStepObserved(s, m, o);
    f := StreamStep(s, m, o);
  }

  lemma RehearsalObserved(w: World, o: Obs) returns (ws: seq<Write>)
    requires MayRehearse(w, o) && JobKey.Rehearsal(OpenRun(w.status)) !in w.jobs
    ensures ws == ObserveRunningJob(w, SetCond(w.status, Validated, CondTrue, SpecValid), o)
    ensures Makes(ws, JobKey.Rehearsal(OpenRun(w.status)))
  {
    var m := SetCond(w.status, Validated, CondTrue, SpecValid);
    var f := StreamNamed(w.spec, m, o);
    ws := ObservationMakes(w, m, o, f);
  }

  /** A pass that may start a rehearsal creates the Job of the open run, unless it exists. */
  lemma RehearsalMakes(w: World, o: Obs) returns (ws: seq<Write>)
    requires MayRehearse(w, o) && JobKey.Rehearsal(OpenRun(w.status)) !in w.jobs
    ensures ws == Pass(w, o) && Makes(ws, JobKey.Rehearsal(OpenRun(w.status)))
  {
    ws := RehearsalObserved(w, o);
    PassObserves(w, o);
  }
}
