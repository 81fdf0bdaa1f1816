/** Every write of a pass that observes a running worker, or handles a failed one, obeys the rules
    and keeps the invariant. */
module ObserveRules {
  import opened Text
  import opened Conditions
  import opened Samples
  import opened Cluster
  import opened Passes
  import opened Runs
  import opened Invariant
  import opened Steps
  import opened Rules
  import opened PassRules
  import opened GateRules
  import Sentinel

  /** A validated Migration with a recorded worker in this state. */
  ghost predicate WorkerReady(w: World, m: Status, s: JobState) {
    Inv(w) && Live(w) && Near(w.status, m) && WorkerIs(w, s) && !w.spec.dryRun &&
    (s.Running? ==> m.rehearsal == w.status.rehearsal)
  }

  /** A recorded worker pins the bookkeeping of the retry. */
  lemma RecordedFacts(w: World, m: Status, s: JobState)
    requires WorkerReady(w, m, s)
    ensures m.attempts >= 1 && m.gate.None? && m.jobName == Some(m.attempts) && Worker(m.attempts) in w.jobs
    ensures w.jobs[Worker(m.attempts)].state == s && Worker(m.attempts + 1) !in w.jobs
    ensures !True(m, RetryHeld) && !SnapshotLostSeen(m)
    ensures !s.Succeeded? ==> JobKey.Reown !in w.jobs && !CloneOnlyDone(w)
  {
  }

  // ------------------------------------------------------------------ what a pass learns about the copy

  /** Only the copy's conditions and the phase differ. */
  predicate CopyShape(m: Status, n: Status) {
    && n == m.(conds := n.conds, phase := n.phase)
    && SameCond(m, n, CaughtUp) && SameCond(m, n, Complete) && SameCond(m, n, CondType.Failed)
    && SameCond(m, n, RetryHeld) && (n.phase == m.phase || n.phase != Phase.Suspended)
  }

  lemma BlockedShape(m: Status, got: Sampled)
    ensures var n := ApplyCommitsBlocked(m, got);
            CopyShape(m, n) && SameCond(m, n, CloneCompleted) && n.phase == m.phase
  {
  }

  lemma StageShape(m: Status, s: Sample, started: bool)
    ensures var n := ApplyStage(m, s, started);
            CopyShape(m, n) && SameCond(m, n, CommitsBlocked)
    ensures var n := ApplyStage(m, s, started);
            SameCond(m, n, CloneCompleted) ||
            (IsFalse(m.conds, CloneCompleted) && !TablesEmptySeen(m) && Latched(n.conds, CloneCompleted, CopyingData))
  {
  }

  /** How the copy's condition may move while the worker runs. */
  predicate CopyMoves(s: Spec, m: Status, o: Obs, n: Status, cloneDone: bool) {
    && (cloneDone ==> True(n, CloneCompleted))
    && (True(m, CloneCompleted) ==> SameCond(m, n, CloneCompleted) && cloneDone)
    && (!True(m, CloneCompleted) && True(n, CloneCompleted) ==> Judges(s, m, o))
    && (TablesEmptySeen(m) ==> TablesEmptySeen(n) || (True(n, CloneCompleted) && OwesNone(o.now)) || !s.follow)
    && (SnapshotLostSeen(n) ==> SnapshotLostSeen(m))
  }

  lemma ConfirmShape(m: Status, counts: Option<Counts>)
    ensures var (n, done) := ConfirmBaseCopy(m, counts);
            CopyShape(m, n) && SameCond(m, n, CommitsBlocked)
  {
  }

  lemma CopyShapeChains(a: Status, b: Status, c: Status)
    requires CopyShape(a, b) && CopyShape(b, c)
    ensures CopyShape(a, c)
  {
  }

  lemma ObserveSampleShape(m: Status, got: Sampled)
    ensures CopyShape(m, ObserveSample(m, got))
  {
    var m1 := ApplyCommitsBlocked(m, got);
    BlockedShape(m, got);
    if got.sample.Some? {
      StageShape(m1, got.sample.value, got.copySeen);
      CopyShapeChains(m, m1, ApplyStage(m1, got.sample.value, got.copySeen));
    }
  }

  lemma ObserveCopyShape(s: Spec, m: Status, o: Obs)
    ensures CopyShape(m, ObserveCopy(s, m, o).0)
  {
    var got := PassSample(s, m, o);
    var m1 := ObserveSample(m, got);
    ObserveSampleShape(m, got);
    if Judges(s, m, o) {
      ConfirmShape(m1, CountsOf(got));
      CopyShapeChains(m, m1, ConfirmBaseCopy(m1, CountsOf(got)).0);
    }
  }

  lemma ObserveSampleMoves(m: Status, got: Sampled)
    ensures var n := ObserveSample(m, got);
            SameCond(m, n, CloneCompleted) ||
            (IsFalse(m.conds, CloneCompleted) && !TablesEmptySeen(m) && Latched(n.conds, CloneCompleted, CopyingData))
  {
    var m1 := ApplyCommitsBlocked(m, got);
    BlockedShape(m, got);
    if got.sample.Some? {
      StageShape(m1, got.sample.value, got.copySeen);
    }
  }

  lemma ObserveCopyMoves(s: Spec, m: Status, o: Obs)
    ensures var r := ObserveCopy(s, m, o); CopyMoves(s, m, o, r.0, r.1)
  {
    ObserveSampleMoves(m, PassSample(s, m, o));
  }

  /** How CommitsBlocked may move while the worker runs. */
  predicate BlockedMoves(m: Status, got: Sampled, n: Status) {
    && (!True(m, CommitsBlocked) && True(n, CommitsBlocked) ==> got.confirmed && WaitOf(got.sample).Some?)
    && (True(m, CommitsBlocked) && !True(n, CommitsBlocked) ==>
          !got.confirmed && WaitOf(got.sample).Some? && !SyncRepOver(WaitOf(got.sample)))
  }

  lemma ApplyBlockedMoves(m: Status, got: Sampled)
    ensures BlockedMoves(m, got, ApplyCommitsBlocked(m, got))
  {
  }

  lemma BlockedMovesOn(m: Status, got: Sampled, a: Status, b: Status)
    requires BlockedMoves(m, got, a) && SameCond(a, b, CommitsBlocked)
    ensures BlockedMoves(m, got, b)
  {
  }

  lemma ObserveSampleBlocked(m: Status, got: Sampled)
    ensures BlockedMoves(m, got, ObserveSample(m, got))
  {
    var m1 := ApplyCommitsBlocked(m, got);
    ApplyBlockedMoves(m, got);
    if got.sample.Some? {
      StageShape(m1, got.sample.value, got.copySeen);
      BlockedMovesOn(m, got, m1, ApplyStage(m1, got.sample.value, got.copySeen));
    }
  }

  lemma ObserveCopyBlocked(s: Spec, m: Status, o: Obs)
    ensures BlockedMoves(m, PassSample(s, m, o), ObserveCopy(s, m, o).0)
  {
    var got := PassSample(s, m, o);
    var m1 := ObserveSample(m, got);
    ObserveSampleBlocked(m, got);
    if Judges(s, m, o) {
      ConfirmShape(m1, CountsOf(got));
      BlockedMovesOn(m, got, m1, ConfirmBaseCopy(m1, CountsOf(got)).0);
    }
  }

  // ------------------------------------------------------------------ series of samples

  /** The status after the clone-done marker was judged against each of these counts in turn. */
  function AfterJudging(m: Status, cs: seq<Option<Counts>>): Status {
    if cs == [] then m else ConfirmBaseCopy(AfterJudging(m, cs[..|cs| - 1]), cs[|cs| - 1]).0
  }

  /** The counts of the last sample that read them. */
  function LastCounts(cs: seq<Option<Counts>>): Option<Counts> {
    if cs == [] then None else if cs[|cs| - 1].Some? then cs[|cs| - 1] else LastCounts(cs[..|cs| - 1])
  }

  predicate Owes(c: Option<Counts>) { c.Some? && c.value.done < c.value.total }

  lemma {:induction false} RefusedIff(m: Status, cs: seq<Option<Counts>>)
    requires !TablesEmptySeen(m)
    ensures TablesEmptySeen(AfterJudging(m, cs)) <==> Owes(LastCounts(cs))
  {
    if cs != [] {
      RefusedIff(m, cs[..|cs| - 1]);
    }
  }

  /** The marker is believed exactly when the last sample that read the counts owes no table, or none
      read them: samples that could not be taken neither refuse it nor lift a refusal. */
  lemma {:induction false} MarkerBelievedIff(m: Status, cs: seq<Option<Counts>>, c: Option<Counts>)
    requires !TablesEmptySeen(m)
    ensures var (n, done) := ConfirmBaseCopy(AfterJudging(m, cs), c);
            (done <==> !Owes(LastCounts(cs + [c]))) && (True(n, CloneCompleted) <==> done)
  {
    RefusedIff(m, cs);
    assert (cs + [c])[..|cs|] == cs;
  }

  /** The status after each of these samples told of the target's waits. */
  function AfterWaits(m: Status, gs: seq<Sampled>): Status {
    if gs == [] then m else ApplyCommitsBlocked(AfterWaits(m, gs[..|gs| - 1]), gs[|gs| - 1])
  }

  /** A sample that was taken and read the waits proves them confirmed, or under 30 s; else nothing. */
  function Proof(got: Sampled): Option<bool> {
    if got.at == 0 || WaitOf(got.sample).None? then None
    else if got.confirmed then Some(true)
    else if SyncRepOver(WaitOf(got.sample)) then None
    else Some(false)
  }

  function LastProof(gs: seq<Sampled>): Option<bool> {
    if gs == [] then None else if Proof(gs[|gs| - 1]).Some? then Proof(gs[|gs| - 1]) else LastProof(gs[..|gs| - 1])
  }

  /** CommitsBlocked is what the last sample that proved anything showed. */
  lemma {:induction false} BlockedIsLastProof(m: Status, gs: seq<Sampled>)
    requires !True(m, CommitsBlocked)
    ensures True(AfterWaits(m, gs), CommitsBlocked) <==> LastProof(gs) == Some(true)
  {
    if gs != [] {
      BlockedIsLastProof(m, gs[..|gs| - 1]);
    }
  }

  /** A sample of the stage, and whether it or one before saw the copy start. */
  datatype Staged = Staged(sample: Sample, started: bool)

  function AfterStages(m: Status, ss: seq<Staged>): Status {
    if ss == [] then m
    else ApplyStage(AfterStages(m, ss[..|ss| - 1]), ss[|ss| - 1].sample, ss[|ss| - 1].started)
  }

  predicate Started(ss: seq<Staged>) { exists i :: 0 <= i < |ss| && ss[i].started }

  /** Over the samples of one attempt, the copy counts as seen exactly when one of them saw it start,
      and the tail is reported only then. */
  lemma {:induction false} StageNeedsACopy(m: Status, ss: seq<Staged>)
    requires Latched(m.conds, CloneCompleted, CloneRunning) && m.phase != Phase.Finalizing
    ensures var n := AfterStages(m, ss);
            && (CopySeen(n) <==> Started(ss)) && !True(n, CloneCompleted)
            && (Latched(n.conds, CloneCompleted, CloneRunning) <==> !Started(ss))
            && (n.phase == Phase.Finalizing ==> Started(ss))
  {
    if ss != [] {
      StageNeedsACopy(m, ss[..|ss| - 1]);
      StartedGrows(ss);
    }
  }

  lemma StartedGrows(ss: seq<Staged>)
    requires ss != []
    ensures Started(ss) <==> ss[|ss| - 1].started || Started(ss[..|ss| - 1])
  {
    if Started(ss) {
      var i :| 0 <= i < |ss| && ss[i].started;
      assert i < |ss| - 1 ==> ss[..|ss| - 1][i].started;
    }
    if Started(ss[..|ss| - 1]) {
      var i :| 0 <= i < |ss| - 1 && ss[..|ss| - 1][i].started;
      assert ss[i].started;
    }
  }

  // ------------------------------------------------------------------ the stream and the cutover

  /** Only the stream's conditions, its positions and the phase differ. */
  predicate FollowShape(m: Status, n: Status) {
    && n == m.(conds := n.conds, phase := n.phase, repl := n.repl)
    && SameCond(m, n, CloneCompleted) && SameCond(m, n, CommitsBlocked) && SameCond(m, n, Complete)
    && SameCond(m, n, CondType.Failed) && SameCond(m, n, RetryHeld)
    && (n.phase == m.phase || n.phase != Phase.Suspended)
  }

  lemma StreamKeepsShape(s: Spec, m: Status, rs: Sentinel.Replication)
    ensures FollowShape(m, StreamStatus(s, m, rs)) && StreamStatus(s, m, rs).repl == Some(rs)
    ensures LagSeenBelow(StreamStatus(s, m, rs)) == Below(s, rs)
  {
  }

  lemma CutoverKeepsShape(s: Spec, m: Status, rs: Sentinel.Replication, caughtUp: bool, answer: Option<string>)
    ensures var n := Cutover(s, m, rs, caughtUp, answer).m;
            n == m.(phase := n.phase, repl := n.repl) && (n.phase == m.phase || n.phase != Phase.Suspended)
  {
  }

  lemma FollowKeepsShape(s: Spec, m: Status, o: Obs, cloneDone: bool)
    ensures FollowShape(m, ReconcileFollowRunning(s, m, o, cloneDone).m)
  {
    if o.sentinel.Some? && cloneDone {
      var rs := CarryForward(o.sentinel.value, m.repl);
      StreamKeepsShape(s, m, rs);
      CutoverKeepsShape(s, StreamStatus(s, m, rs), rs, Below(s, rs) && LagSeenBelow(m), o.endposAnswer);
    }
  }

  lemma CarriedEndpos(st: Sentinel.State, prev: Option<Sentinel.Replication>)
    requires st.endpos == ""
    ensures CarryForward(st, prev).endpos == if prev.Some? then prev.value.endpos else ""
  {
  }

  lemma CutoverEndpos(s: Spec, m: Status, rs: Sentinel.Replication, caughtUp: bool, answer: Option<string>)
    requires m.repl == Some(rs)
    ensures var f := Cutover(s, m, rs, caughtUp, answer);
            var asks := !Sentinel.LSNSet(rs.endpos) && CutoverWanted(s, caughtUp);
            && f.ws == (if asks then [SetEndpos] else []) && f.m.repl.Some?
            && (Sentinel.LSNSet(rs.endpos) ==> f.m.repl.value.endpos == rs.endpos)
            && (!Sentinel.LSNSet(rs.endpos) && EndposHeld(f.m) ==> asks && answer == Some(f.m.repl.value.endpos))
  {
  }

  lemma ActingEndpos(s: Spec, m: Status, o: Obs)
    requires o.sentinel.Some? && o.sentinel.value.endpos == ""
    ensures var f := ReconcileFollowRunning(s, m, o, true);
            var below := Below(s, CarryForward(o.sentinel.value, m.repl));
            var asks := !EndposHeld(m) && LagSeenBelow(m) && below && (s.automatic || s.approved);
            && f.ws == (if asks then [SetEndpos] else [])
            && (EndposHeld(m) ==> f.m.repl.Some? && f.m.repl.value.endpos == m.repl.value.endpos)
            && (!EndposHeld(m) && EndposHeld(f.m) ==> asks && o.endposAnswer == Some(f.m.repl.value.endpos))
  {
    var rs := CarryForward(o.sentinel.value, m.repl);
    CarriedEndpos(o.sentinel.value, m.repl);
    StreamKeepsShape(s, m, rs);
    CutoverEndpos(s, StreamStatus(s, m, rs), rs, Below(s, rs) && LagSeenBelow(m), o.endposAnswer);
  }

  /** The stream step asks for the cutover only when it may, and keeps an endpos it holds. */
  lemma FollowEndpos(s: Spec, m: Status, o: Obs, cloneDone: bool)
    requires o.sentinel.Some? ==> o.sentinel.value.endpos == ""
    ensures var f := ReconcileFollowRunning(s, m, o, cloneDone);
            var asks := o.sentinel.Some? && cloneDone && !EndposHeld(m) && LagSeenBelow(m) &&
                        Below(s, CarryForward(o.sentinel.value, m.repl)) && (s.automatic || s.approved);
            && f.ws == (if asks then [SetEndpos] else [])
            && (EndposHeld(m) ==> f.m.repl.Some? && f.m.repl.value.endpos == m.repl.value.endpos)
            && (!EndposHeld(m) && EndposHeld(f.m) ==> asks && o.endposAnswer == Some(f.m.repl.value.endpos))
  {
    if o.sentinel.Some? {
      if cloneDone {
        ActingEndpos(s, m, o);
      } else {
        CarriedEndpos(o.sentinel.value, m.repl);
      }
    }
  }

  /** An acting pass leaves exactly its own measurement in the latch. */
  lemma FollowLatch(s: Spec, m: Status, o: Obs, cloneDone: bool)
    ensures var f := ReconcileFollowRunning(s, m, o, cloneDone);
            if o.sentinel.Some? && cloneDone then LagSeenBelow(f.m) == Below(s, CarryForward(o.sentinel.value, m.repl))
            else SameCond(m, f.m, CaughtUp)
  {
    if o.sentinel.Some? && cloneDone {
      var rs := CarryForward(o.sentinel.value, m.repl);
      StreamKeepsShape(s, m, rs);
      CutoverKeepsShape(s, StreamStatus(s, m, rs), rs, Below(s, rs) && LagSeenBelow(m), o.endposAnswer);
    }
  }

  // ------------------------------------------------------------------ the rehearsal step

  predicate RehearsalOnly(m: Status, n: Status) { n == m.(rehearsal := n.rehearsal) }

  /** Nothing but rehearsal Jobs differs. */
  ghost predicate Aside(w: World, v: World) {
    && v == w.(jobs := v.jobs)
    && (forall k: JobKey :: !k.Rehearsal? ==> (k in v.jobs <==> k in w.jobs))
    && (forall k :: k in w.jobs && !k.Rehearsal? ==> v.jobs[k] == w.jobs[k])
  }

  /** What the rehearsal step may leave: the same open run, or the next one with nothing left of this. */
  ghost predicate RunMoves(v: World, m: Status, n: Status) {
    || OpenRun(n) == OpenRun(m)
    || (OpenRun(n) == OpenRun(m) + 1 && !RehearsalPod(v) &&
        forall k: nat :: JobKey.Rehearsal(k) in v.jobs ==> !Startable(v.jobs[JobKey.Rehearsal(k)]))
  }

  ghost predicate RehearsalStepRules(p: WriteRule, w: World, m: Status, r: Step) {
    var v := ApplyAll(w, r.ws);
    Every(p, w, r.ws) && Inv(v) && Aside(w, v) && RehearsalOnly(m, r.m) && RunRule(v, r.m) && RunMoves(v, m, r.m)
  }

  lemma CancelRules(p: WriteRule, w: World, o: Obs, m: Status, f: Fault)
    requires Covers(p, o) && Inv(w) && m.rehearsal == w.status.rehearsal
    ensures RehearsalStepRules(p, w, m, CancelRehearsal(w, m, o, f))
  {
    CancelShape(w, m, o, f);
    DeletesLawful(p, w, o, CancelRehearsal(w, m, o, f).ws);
  }

  lemma DisarmRules(p: WriteRule, w: World, o: Obs, m: Status, f: Fault)
    requires Covers(p, o) && Inv(w) && m.rehearsal == w.status.rehearsal && ValidObs(w, o)
    requires Armed(m) && !w.spec.rehearsal && !RehearsalPod(w) && !CancelRehearsal(w, m, o, f).failed
    ensures var c := CancelRehearsal(w, m, o, f);
            c.m.rehearsal.Some? &&
            RehearsalStepRules(p, w, m, Step(c.m.(rehearsal := Some(c.m.rehearsal.value.(armed := false))), c.ws,
            false))
  {
    var c := CancelRehearsal(w, m, o, f);
    CancelRules(p, w, o, m, f);
    CancelShape(w, m, o, f);
    var v := ApplyAll(w, c.ws);
    forall k: nat | JobKey.Rehearsal(k) in v.jobs ensures !Startable(v.jobs[JobKey.Rehearsal(k)]) {
      CancelStops(w, m, o, f, k);
    }
  }

  lemma DropRules(p: WriteRule, w: World, o: Obs, m: Status, run: nat)
    requires Covers(p, o) && Inv(w)
    ensures var v := ApplyAll(w, DropPrevious(m, run));
            Every(p, w, DropPrevious(m, run)) && Inv(v) && Winding(w, v)
  {
    DeletesLawful(p, w, o, DropPrevious(m, run));
    assert Winding(w, w);
    DeletesWind(w, w, DropPrevious(m, run));
  }

  lemma EnsureRunRules(p: WriteRule, w: World, o: Obs, v: World)
    requires Covers(p, o) && Inv(v) && RehearsalRule(v, OpenRun(v.status)) && Winding(w, v)
    ensures var run := OpenRun(v.status);
            var u := ApplyAll(v, EnsureRun(w, run));
            Every(p, v, EnsureRun(w, run)) && Inv(u) && Aside(w, u) && JobKey.Rehearsal(run) in u.jobs
  {
    var run := OpenRun(v.status);
    if JobKey.Rehearsal(run) !in w.jobs {
      var x := CreateJob(JobKey.Rehearsal(run), NewJob(BuiltOther));
      CreateRehearsalKeeps(v, NewJob(BuiltOther));
      LawfulOne(p, v, o, x);
      assert ApplyAll(v, [x]) == Apply(v, x) by { assert [x][1..] == []; }
    }
  }

  /** A step that leaves arming and the run alone. */
  lemma IdleRules(p: WriteRule, w: World, m: Status, r: Step)
    requires Every(p, w, r.ws) && Inv(ApplyAll(w, r.ws)) && Aside(w, ApplyAll(w, r.ws)) &&
             m.rehearsal == w.status.rehearsal
    requires RehearsalOnly(m, r.m) && Armed(r.m) == Armed(m) && LastRun(r.m) == LastRun(m)
    ensures RehearsalStepRules(p, w, m, r)
  {
  }

  lemma StartedRules(p: WriteRule, w: World, o: Obs, m: Status)
    requires Covers(p, o) && Inv(w) && m.rehearsal == w.status.rehearsal && RehearsalRule(w, OpenRun(w.status))
    ensures var run := OpenRun(w.status);
            RehearsalStepRules(p, w, m, Step(m.(rehearsal := Some(RehearsalStatus(true, run, Some(run), InProgress))),
                                             DropPrevious(m, run) + EnsureRun(w, run), false))
  {
    var run := OpenRun(w.status);
    var drop := DropPrevious(m, run);
    DropRules(p, w, o, m, run);
    EnsureRunRules(p, w, o, ApplyAll(w, drop));
    EveryConcat(p, w, drop, EnsureRun(w, run));
    ApplyAllConcat(w, drop, EnsureRun(w, run));
  }

  lemma StartRules(p: WriteRule, w: World, o: Obs, m: Status, f: Fault)
    requires Covers(p, o) && Inv(w) && m.rehearsal == w.status.rehearsal && RehearsalRule(w, OpenRun(w.status))
    ensures RehearsalStepRules(p, w, m, StartRehearsal(w, m, f))
  {
    var run := OpenRun(w.status);
    var drop := DropPrevious(m, run);
    if drop != [] && f.AtDelete? {
      IdleRules(p, w, m, Step(RehearsalNotStarted(m), [], true));
    } else if f.AtEnsure? {
      DropRules(p, w, o, m, run);
      IdleRules(p, w, m, Step(RehearsalNotStarted(m), drop, true));
    } else {
      StartedRules(p, w, o, m);
    }
  }

  lemma UnrequestedRules(p: WriteRule, w: World, o: Obs, m: Status)
    requires Covers(p, o) && Inv(w) && m.rehearsal == w.status.rehearsal && ValidObs(w, o) && !w.spec.rehearsal
    ensures RehearsalStepRules(p, w, m, ReconcileRehearsal(w, m, o))
  {
    if !Armed(m) {
      IdleRules(p, w, m, Step(m, [], false));
    } else {
      CancelRules(p, w, o, m, o.fault);
      if !CancelRehearsal(w, m, o, o.fault).failed && !RehearsalPod(w) {
        DisarmRules(p, w, o, m, o.fault);
      }
    }
  }

  lemma RehearsalRules(p: WriteRule, w: World, o: Obs, m: Status)
    requires Covers(p, o) && Inv(w) && m.rehearsal == w.status.rehearsal && ValidObs(w, o)
    requires Live(w) && w.spec.follow && WorkerIs(w, Running)
    ensures RehearsalStepRules(p, w, m, ReconcileRehearsal(w, m, o))
  {
    if !w.spec.rehearsal {
      UnrequestedRules(p, w, o, m);
    } else if m.phase == Phase.CuttingOver {
      CancelRules(p, w, o, m, o.fault);
    } else if Armed(m) || (m.phase != Phase.Streaming && m.phase != Phase.CutoverPending) || w.spec.automatic {
      WaitingRules(p, w, o, m);
    } else {
      StartRules(p, w, o, m, o.fault);
    }
  }

  lemma WaitingRules(p: WriteRule, w: World, o: Obs, m: Status)
    requires Inv(w) && m.rehearsal == w.status.rehearsal && w.spec.rehearsal && m.phase != Phase.CuttingOver
    requires Armed(m) || (m.phase != Phase.Streaming && m.phase != Phase.CutoverPending) || w.spec.automatic
    ensures RehearsalStepRules(p, w, m, ReconcileRehearsal(w, m, o))
  {
    IdleRules(p, w, m, Step(ReconcileRehearsal(w, m, o).m, [], false));
  }

  // ------------------------------------------------------------------ the whole observation

  /** Everything an observing pass may do to the status, against the copy m it started from. */
  predicate Observed(s: Spec, m: Status, o: Obs, n: Status) {
    && n == m.(conds := n.conds, phase := n.phase, repl := n.repl, rehearsal := n.rehearsal)
    && SameCond(m, n, Complete) && SameCond(m, n, CondType.Failed)
    && (n.phase == m.phase || n.phase != Phase.Suspended)
    && BlockedMoves(m, PassSample(s, m, o), n)
  }

  /** The cutover step's effect on the positions and the latch. */
  predicate Streamed(s: Spec, m: Status, o: Obs, n: Status, asks: bool) {
    && (EndposHeld(m) ==> n.repl.Some? && n.repl.value.endpos == m.repl.value.endpos)
    && (!EndposHeld(m) && EndposHeld(n) ==> asks && o.endposAnswer == Some(n.repl.value.endpos))
    && (if s.follow && o.sentinel.Some? && ObserveCopy(s, m, o).1
        then LagSeenBelow(n) == Below(s, CarryForward(o.sentinel.value, m.repl)) else SameCond(m, n, CaughtUp))
  }

  predicate Asks(s: Spec, m: Status, o: Obs) {
    s.follow && o.sentinel.Some? && ObserveCopy(s, m, o).1 && !EndposHeld(m) && LagSeenBelow(m) &&
    Below(s, CarryForward(o.sentinel.value, m.repl)) && (s.automatic || s.approved)
  }

  lemma StreamStepObserved(s: Spec, m: Status, o: Obs)
    ensures var n := StreamStep(s, m, o).m;
            Observed(s, m, o, n) && CopyMoves(s, m, o, n, ObserveCopy(s, m, o).1) && SameCond(m, n, RetryHeld) &&
            n.rehearsal == m.rehearsal
  {
    var r := ObserveCopy(s, m, o);
    ObserveCopyShape(s, m, o);
    ObserveCopyMoves(s, m, o);
    ObserveCopyBlocked(s, m, o);
    FollowKeepsShape(s, r.0, o, r.1);
    if s.follow {
      BlockedMovesOn(m, PassSample(s, m, o), r.0, ReconcileFollowRunning(s, r.0, o, r.1).m);
      CopyMovesOn(s, m, o, r.0, ReconcileFollowRunning(s, r.0, o, r.1).m, r.1);
    }
  }

  lemma CopyMovesOn(s: Spec, m: Status, o: Obs, a: Status, b: Status, done: bool)
    requires CopyMoves(s, m, o, a, done) && SameCond(a, b, CloneCompleted)
    ensures CopyMoves(s, m, o, b, done)
  {
  }

  lemma StreamStepStreamed(s: Spec, m: Status, o: Obs)
    requires o.sentinel.Some? ==> o.sentinel.value.endpos == ""
    ensures var f := StreamStep(s, m, o);
            Streamed(s, m, o, f.m, Asks(s, m, o)) && f.ws == (if Asks(s, m, o) then [SetEndpos] else [])
  {
    var r := ObserveCopy(s, m, o);
    ObserveCopyShape(s, m, o);
    if s.follow {
      FollowEndpos(s, r.0, o, r.1);
      FollowLatch(s, r.0, o, r.1);
    }
  }

  /** A copy in the working status and in the recorded one read alike. */
  lemma NearReads(s: Spec, m: Status, n: Status, o: Obs)
    requires Near(m, n)
    ensures Judges(s, m, o) == Judges(s, n, o) && PassSample(s, m, o) == PassSample(s, n, o)
    ensures LagSeenBelow(m) == LagSeenBelow(n) && EndposHeld(m) == EndposHeld(n)
  {
  }

  lemma NearDone(s: Spec, m: Status, n: Status, o: Obs)
    requires Near(m, n)
    ensures ObserveCopy(s, m, o).1 == ObserveCopy(s, n, o).1
  {
    NearReads(s, m, n, o);
    if Judges(s, m, o) {
      var got := PassSample(s, m, o);
      ObserveSampleMoves(m, got);
      ObserveSampleMoves(n, got);
    }
  }
}
