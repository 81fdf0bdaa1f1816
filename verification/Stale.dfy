/** Passes that work from a stale copy of the status. An unlocked patch is merged into what the server
    holds; a locked one conflicts and ends the pass. The retry gate's verdict and its worker stand
    behind locked patches only, so its accounts are safe under such copies; the conditions are not. */
module Stale {
  import opened Text
  import opened Conditions
  import opened Cluster
  import opened Passes
  import GateLog

  predicate Locked(x: Write) { x.Patch? && x.locked }

  /** What lands of a pass whose copy is stale: everything before its first locked patch. */
  function Landed(ws: seq<Write>): seq<Write> {
    if ws == [] || Locked(ws[0]) then [] else [ws[0]] + Landed(ws[1..])
  }

  function Pick<T(==)>(cur: T, base: T, n: T): T { if n == base then cur else n }

  // ------------------------------------------------------------------ whole copies

  /** What a condition carries beside its status and reason. No branch of a pass decides on it, but a
      merge patch compares it: a changed text or generation replaces the list of conditions. */
  datatype Note = Note(text: string, generation: nat)

  /** The status with its conditions as the API server keeps them. */
  datatype Copy = Copy(status: Status, notes: map<CondType, Note>)

  predicate SameConditions(c: Copy, d: Copy) { c.status.conds == d.status.conds && c.notes == d.notes }

  /** A merge patch from base to n, applied to what the server holds; the conditions are one list,
      which the patch replaces whole. */
  function Merge(cur: Copy, base: Copy, n: Copy): Copy {
    var c, b, m := cur.status, base.status, n.status;
    var cs := if SameConditions(n, base) then cur else n;
    Copy(c.(phase := Pick(c.phase, b.phase, m.phase), attempts := Pick(c.attempts, b.attempts, m.attempts),
            exempt := Pick(c.exempt, b.exempt, m.exempt), jobName := Pick(c.jobName, b.jobName, m.jobName),
            gate := Pick(c.gate, b.gate, m.gate), repl := Pick(c.repl, b.repl, m.repl),
            rehearsal := Pick(c.rehearsal, b.rehearsal, m.rehearsal),
            verification := Pick(c.verification, b.verification, m.verification),
            started := Pick(c.started, b.started, m.started), completed := Pick(c.completed, b.completed, m.completed),
            conds := cs.status.conds),
         cs.notes)
  }

  /** What a pass writes into the conditions it sets: the generation it read, and its messages. */
  datatype Words = Words(generation: nat, valid: string, hold: string, failure: string, budget: string, ended: string)

  function Noted(c: Copy, n: Status, t: CondType, text: string, x: Words): Copy {
    Copy(n, c.notes[t := Note(text, x.generation)])
  }

  /** The working copy of a retry: the spec is valid, and a cancel may have changed the rehearsal. */
  function Prepared(b: Copy, r: Option<Rehearsal>, x: Words): Copy {
    Noted(b, SetCond(b.status, Validated, CondTrue, SpecValid).(rehearsal := r), Validated, x.valid, x)
  }

  function Hold(s: Spec, c: Copy, r: Reason, text: string, x: Words): Copy {
    Noted(c, SetHold(s, c.status, r), RetryHeld, text, x)
  }

  /** failBudget, with the messages. */
  function BudgetFailed(c: Copy, x: Words): Copy {
    var c1 :=
      if c.status.gate.Some?
      then Noted(c, SetCond(c.status, CloneCompleted, CondFalse, CloneFailed), CloneCompleted, x.failure, x) else c;
    var c2 := Noted(c1, SetCond(c1.status.(phase := Phase.Failed), CondType.Failed, CondTrue, BackoffLimitExceeded),
                    CondType.Failed, x.budget, x);
    if True(c2.status, RetryHeld) then Noted(c2, EndHold(c2.status, HoldMigrationFailed), RetryHeld, x.ended, x) else c2
  }

  // ------------------------------------------------------------------ what the retry path would set

  /** The copy's budget is spent and no verdict is awaited: the pass fails the Migration at once. */
  predicate FailsAtOnce(w: World, m: Status) {
    (!OnFailurePath(m) || !m.gate.value.verdict.Undecided?) && BudgetSpent(w.spec, m)
  }

  /** The probe of the next attempt, once it has finished and nothing else holds the retry. */
  function Judged(w: World, m: Status): Option<Job> {
    var k := JobKey.Gate(m.attempts + 1);
    if HasPod(w, Worker(m.attempts)) || RehearsalPod(w) then None
    else if k !in w.jobs || w.jobs[k].deleting || w.jobs[k].state.Running? then None
    else Some(w.jobs[k])
  }

  predicate Current(w: World, m: Status, j: Job) { InputsOf(j) == GateInputsFor(w.spec, m) }

  /** A completion too old, or of other inputs, to count. */
  predicate Outdated(w: World, m: Status, j: Job) {
    j.state.Succeeded? && (!Current(w, m, j) || w.clock > j.finishedAt + GATE_PASS_FRESHNESS)
  }

  /** The retry path reaches a locked patch before any other: the verdict is overdue, or the finished
      probe clears the gate or brings the verdict. */
  predicate LockedFirst(w: World, m: Status, o: Obs) {
    || (OnFailurePath(m) && VerdictOverdue(m, w.clock))
    || (Judged(w, m).Some? &&
        var j := Judged(w, m).value;
        !Outdated(w, m, j) && (ProbePassed(w, m, o, j) || Judgeable(m, ProbeResult(o, j))))
  }

  /** A hold an earlier probe gave stands, with its text, while the next one is pending. */
  predicate Standing(m: Status) {
    True(m, RetryHeld) && m.conds[RetryHeld].reason !in {GateProbing, WorkerPodRemains}
  }

  /** Some pod is left, or a probe reported a result: the hold is not for a pending probe. */
  function Found(w: World, m: Status, o: Obs): Option<Reason> {
    var k := JobKey.Gate(m.attempts + 1);
    if HasPod(w, Worker(m.attempts)) || RehearsalPod(w) then Some(WorkerPodRemains)
    else if k in w.jobs && !w.jobs[k].deleting && w.jobs[k].state.Running? && o.probeStuck then Some(ProbeFailed)
    else if Judged(w, m).Some? && !Outdated(w, m, Judged(w, m).value) && Current(w, m, Judged(w, m).value) then
      var h := GateLog.Hold(ProbeResult(o, Judged(w, m).value), GateInputsFor(w.spec, m));
      Some(if !o.gateReadable || h.None? then ProbeFailed else h.value)
    else None
  }

  function HoldReason(w: World, m: Status, o: Obs): Reason {
    if Found(w, m, o).Some? then Found(w, m, o).value
    else if Standing(m) then m.conds[RetryHeld].reason
    else GateProbing
  }

  function HoldText(w: World, c: Copy, o: Obs, x: Words): string {
    if Found(w, c.status, o).None? && Standing(c.status) && RetryHeld in c.notes then c.notes[RetryHeld].text
    else x.hold
  }

  /** What the retry path patches without a lock, if it does. */
  function Unlocked(w: World, c: Copy, o: Obs, x: Words): Option<Copy> {
    if FailsAtOnce(w, c.status) then Some(BudgetFailed(c, x))
    else if LockedFirst(w, c.status, o) then None
    else Some(Hold(w.spec, c, HoldReason(w, c.status, o), HoldText(w, c, o, x), x))
  }

  // ------------------------------------------------------------------ it is what lands

  function Patches(ws: seq<Write>): seq<Status> {
    if ws == [] then [] else (if ws[0].Patch? then [ws[0].status] else []) + Patches(ws[1..])
  }

  /** The write starts no worker. */
  predicate NoWorker(ws: seq<Write>) { forall x :: x in ws && x.CreateJob? ==> !x.key.Worker? }

  /** Of a gate's writes from a stale copy, no worker and at most this one patch lands. */
  predicate LandsOnly(ws: seq<Write>, n: Option<Status>) {
    NoWorker(Landed(ws)) && Patches(Landed(ws)) == if n.Some? then [n.value] else []
  }

  lemma LandsOne(n: Status, x: Write)
    requires !Locked(x) && !x.Patch? && !(x.CreateJob? && x.key.Worker?)
    ensures LandsOnly([Patch(n, false)], Some(n)) && LandsOnly([x] + [Patch(n, false)], Some(n))
  {
    var p := [Patch(n, false)];
    assert p[1..] == [] && ([x] + p)[1..] == p;
    assert Landed(p) == [p[0]] + Landed([]) && Landed([x] + p) == [x] + Landed(p);
    assert Landed(p) == p && ([x] + Landed(p))[1..] == Landed(p);
    assert Patches(p) == [n] + Patches([]);
  }

  lemma LandsNone(ws: seq<Write>)
    requires ws != [] && Locked(ws[0])
    ensures LandsOnly(ws, None)
  {
  }

  lemma HoldLands(s: Spec, m: Status, r: Reason, x: Write)
    requires !Locked(x) && !x.Patch? && !(x.CreateJob? && x.key.Worker?)
    ensures var p := Patch(SetHold(s, m, r), false);
            LandsOnly([p], Some(SetHold(s, m, r))) && LandsOnly([x, p], Some(SetHold(s, m, r)))
  {
    LandsOne(SetHold(s, m, r), x);
    assert [x] + [Patch(SetHold(s, m, r), false)] == [x, Patch(SetHold(s, m, r), false)];
  }

  lemma ProbingIs(s: Spec, m: Status)
    ensures Probing(s, m) == SetHold(s, m, if Standing(m) then m.conds[RetryHeld].reason else GateProbing)
  {
  }

  lemma HoldProbeLands(w: World, m: Status, o: Obs, j: Job)
    requires Judged(w, m) == Some(j) && !Outdated(w, m, j)
    ensures LandsOnly(HoldProbe(w, m, o, JobKey.Gate(m.attempts + 1), j, Current(w, m, j), ProbeResult(o, j)),
                      Some(SetHold(w.spec, m, HoldReason(w, m, o))))
  {
    var x := DeleteJob(JobKey.Gate(m.attempts + 1), Background);
    var p := Patch(SetHold(w.spec, m, HoldReason(w, m, o)), false);
    ProbingIs(w.spec, m);
    HoldLands(w.spec, m, HoldReason(w, m, o), x);
    assert [x] + [p] == [x, p] && [] + [p] == [p];
  }

  lemma JudgedLands(w: World, m: Status, o: Obs, j: Job) returns (g: GateStep)
    requires Judged(w, m) == Some(j) && !(OnFailurePath(m) && VerdictOverdue(m, w.clock))
    ensures g == JudgeProbe(w, m, o, JobKey.Gate(m.attempts + 1), j) && GateLands(w, m, o, g)
  {
    var key := JobKey.Gate(m.attempts + 1);
    g := JudgeProbe(w, m, o, key, j);
    if Outdated(w, m, j) {
      ProbingIs(w.spec, m);
      HoldLands(w.spec, m, HoldReason(w, m, o), DeleteJob(key, Background));
    } else if !ProbePassed(w, m, o, j) && !Judgeable(m, ProbeResult(o, j)) {
      HoldProbeLands(w, m, o, j);
    }
  }

  /** What the gate lands from a stale copy: nothing before its lock, or the one hold. */
  predicate GateLands(w: World, m: Status, o: Obs, g: GateStep) {
    if LockedFirst(w, m, o) then (if g.Cleared? then g.ws == [] else g.ws != [] && Locked(g.ws[0]))
    else g.Held? && LandsOnly(g.ws, Some(SetHold(w.spec, m, HoldReason(w, m, o))))
  }

  lemma PendingLands(w: World, m: Status, o: Obs, x: Write)
    requires Judged(w, m).None? && !(OnFailurePath(m) && VerdictOverdue(m, w.clock))
    requires !Locked(x) && !x.Patch? && !(x.CreateJob? && x.key.Worker?)
    ensures var p := Patch(SetHold(w.spec, m, HoldReason(w, m, o)), false);
            GateLands(w, m, o, Held([p])) && GateLands(w, m, o, Held([x, p]))
  {
    HoldLands(w.spec, m, HoldReason(w, m, o), x);
  }

  lemma ProbeGateLands(w: World, m: Status, o: Obs) returns (g: GateStep)
    requires m.attempts >= 1 && !(OnFailurePath(m) && VerdictOverdue(m, w.clock))
    ensures g == ProbeGate(w, m, o, m.attempts + 1) && GateLands(w, m, o, g)
  {
    var key := JobKey.Gate(m.attempts + 1);
    g := ProbeGate(w, m, o, m.attempts + 1);
    if Judged(w, m).Some? {
      var g1 := JudgedLands(w, m, o, Judged(w, m).value);
      assert g == g1;
    } else {
      var x := CreateJob(key, NewJob(BuiltGate(GateInputsFor(w.spec, m))));
      ProbingIs(w.spec, m);
      PendingLands(w, m, o, x);
    }
  }

  lemma AfterGateLands(w: World, m: Status, o: Obs, g: GateStep)
    requires GateLands(w, m, o, g)
    ensures LandsOnly(AfterGate(w, g),
                      if LockedFirst(w, m, o) then None else Some(SetHold(w.spec, m, HoldReason(w, m, o))))
  {
    if LockedFirst(w, m, o) && g.Cleared? {
      assert [] + Settle(w, g.m) == Settle(w, g.m);
      LandsNone(Settle(w, g.m));
    } else if LockedFirst(w, m, o) {
      LandsNone(g.ws);
    }
  }

  lemma OverdueLands(w: World, m: Status, o: Obs)
    requires m.attempts >= 1 && OnFailurePath(m) && VerdictOverdue(m, w.clock)
    ensures LandsOnly(AfterGate(w, RetryGatePass(w, m, o, m.attempts + 1)), None)
  {
    var x := Patch(Decide(w.spec, m, Counted), true);
    var g := RetryGatePass(w, m, o, m.attempts + 1);
    assert g.ws != [] && g.ws[0] == x;
    assert AfterGate(w, g)[0] == x;
    LandsNone(AfterGate(w, g));
  }

  lemma RetryLands(w: World, m: Status, o: Obs) returns (ws: seq<Write>)
    requires m.attempts >= 1
    ensures ws == AfterGate(w, RetryGatePass(w, m, o, m.attempts + 1))
    ensures LandsOnly(ws, if LockedFirst(w, m, o) then None else Some(SetHold(w.spec, m, HoldReason(w, m, o))))
  {
    if OnFailurePath(m) && VerdictOverdue(m, w.clock) {
      OverdueLands(w, m, o);
      ws := AfterGate(w, RetryGatePass(w, m, o, m.attempts + 1));
    } else {
      var g := ProbeGateLands(w, m, o);
      AfterGateLands(w, m, o, g);
      ws := AfterGate(w, g);
    }
  }

  lemma BudgetFailedIs(c: Copy, x: Words)
    ensures BudgetFailed(c, x).status == FailBudget(c.status)
  {
  }

  /** The status of the one patch. */
  function OneStatus(w: World, m: Status, o: Obs): Option<Status> {
    if FailsAtOnce(w, m) then Some(FailBudget(m))
    else if LockedFirst(w, m, o) then None
    else Some(SetHold(w.spec, m, HoldReason(w, m, o)))
  }

  lemma UnlockedIs(w: World, c: Copy, o: Obs, x: Words)
    ensures Unlocked(w, c, o, x).Some? <==> OneStatus(w, c.status, o).Some?
    ensures Unlocked(w, c, o, x).Some? ==> Some(Unlocked(w, c, o, x).value.status) == OneStatus(w, c.status, o)
  {
    BudgetFailedIs(c, x);
  }

  lemma StartIs(w: World, m: Status, o: Obs)
    requires m.attempts >= 1 && Worker(m.attempts + 1) !in w.jobs
    ensures StartAttempt(w, m, o) ==
              if FailsAtOnce(w, m) then [Patch(FailBudget(m), false)]
              else AfterGate(w, RetryGatePass(w, m, o, m.attempts + 1))
  {
  }

  lemma StartLands(w: World, m: Status, o: Obs) returns (ws: seq<Write>)
    requires m.attempts >= 1 && Worker(m.attempts + 1) !in w.jobs
    ensures ws == StartAttempt(w, m, o) && LandsOnly(ws, OneStatus(w, m, o))
  {
    StartIs(w, m, o);
    if FailsAtOnce(w, m) {
      LandsOne(FailBudget(m), AddFinalizer);
      ws := [Patch(FailBudget(m), false)];
    } else {
      ws := RetryLands(w, m, o);
    }
  }

  /** A stale retry lands no worker, and at most one patch: exactly the one given by what its copy and
      its readings show. Only the adoption of a worker that already exists is a path of its own. */
  lemma StaleRetryLands(w: World, c: Copy, o: Obs, x: Words) returns (ws: seq<Write>)
    requires c.status.attempts >= 1 && Worker(c.status.attempts + 1) !in w.jobs
    ensures ws == Landed(StartAttempt(w, c.status, o)) && NoWorker(ws)
    ensures Patches(ws) == if Unlocked(w, c, o, x).Some? then [Unlocked(w, c, o, x).value.status] else []
  {
    var all := StartLands(w, c.status, o);
    UnlockedIs(w, c, o, x);
    ws := Landed(all);
  }

  // ------------------------------------------------------------------ the accounts

  /** The server's accounts: attempts, refunds, the recorded worker and the gate's record. */
  predicate SameAccounts(m: Status, n: Status) {
    m.attempts == n.attempts && m.exempt == n.exempt && m.jobName == n.jobName && m.gate == n.gate
  }

  lemma MergeKeepsAccounts(cur: Copy, base: Copy, n: Copy)
    requires SameAccounts(base.status, n.status)
    ensures SameAccounts(cur.status, Merge(cur, base, n).status)
  {
  }

  lemma UnlockedAccounts(w: World, c: Copy, o: Obs, x: Words)
    requires Unlocked(w, c, o, x).Some?
    ensures SameAccounts(c.status, Unlocked(w, c, o, x).value.status)
  {
    BudgetFailedIs(c, x);
  }

  /** What the server holds after a retry from the copy b. */
  function Left(w: World, b: Copy, r: Option<Rehearsal>, o: Obs, x: Words, cur: Copy): Copy {
    match Unlocked(w, Prepared(b, r, x), o, x)
    case None => cur
    case Some(n) => Merge(cur, b, n)
  }

  /** A retry from a stale copy starts no worker, lands one patch at most, and leaves the server's
      attempts, refunds, recorded worker and verdict alone. */
  lemma StaleRetryKeepsAccounts(w: World, b: Copy, r: Option<Rehearsal>, o: Obs, x: Words, cur: Copy)
    requires b.status.attempts >= 1 && Worker(b.status.attempts + 1) !in w.jobs
    ensures var ws := Landed(StartAttempt(w, Prepared(b, r, x).status, o));
            NoWorker(ws) && |Patches(ws)| <= 1
    ensures SameAccounts(cur.status, Left(w, b, r, o, x, cur).status)
  {
    var c := Prepared(b, r, x);
    var ws := StaleRetryLands(w, c, o, x);
    if Unlocked(w, c, o, x).Some? {
      UnlockedAccounts(w, c, o, x);
      MergeKeepsAccounts(cur, b, Unlocked(w, c, o, x).value);
    }
  }

  /** The path of its own: a worker of the copy's next attempt exists, and the stale pass adopts it. It
      keeps the server's accounts if and only if the server has recorded that very attempt already,
      with no failure since. */
  lemma StaleAdoptionIff(w: World, b: Copy, r: Option<Rehearsal>, o: Obs, x: Words, cur: Copy,
                         notes: map<CondType, Note>)
    requires b.status.attempts >= 1 && Worker(b.status.attempts + 1) in w.jobs
    ensures var n := b.status.attempts + 1;
            var m := Prepared(b, r, x).status;
            && Patches(Landed(StartAttempt(w, m, o))) == [RecordedStatus(m)]
            && (SameAccounts(cur.status, Merge(cur, b, Copy(RecordedStatus(m), notes)).status) <==>
                  && cur.status.attempts == n && (b.status.jobName != Some(n) ==> cur.status.jobName == Some(n))
                  && (b.status.gate.Some? ==> cur.status.gate.None?))
  {
    var m := Prepared(b, r, x).status;
    var p, d := Patch(RecordedStatus(m), false), DeleteJob(JobKey.Gate(m.attempts + 1), Background);
    assert StartAttempt(w, m, o) == [p] + [d] == [p, d];
    assert [p, d][1..] == [d] && [d][1..] == [];
    assert Landed([d]) == [d] + Landed([]) && Landed([p, d]) == [p] + Landed([d]);
    assert Patches([d]) == [] && Patches([p, d]) == [p.status] + Patches([d]);
  }

  // ------------------------------------------------------------------ the outcome

  /** Complete and Failed each read as before. */
  predicate SameOutcome(m: Status, n: Status) {
    (True(m, Complete) <==> True(n, Complete)) && (True(m, CondType.Failed) <==> True(n, CondType.Failed))
  }

  predicate Holds(c: Copy, t: CondType, s: CondStatus, r: Reason, n: Note) {
    t in c.status.conds && c.status.conds[t] == Condition(s, r) && t in c.notes && c.notes[t] == n
  }

  /** The copy already holds, to the message and the generation, what the pass would set. */
  predicate NothingNew(w: World, b: Copy, r: Option<Rehearsal>, o: Obs, x: Words) {
    var c := Prepared(b, r, x);
    && Holds(b, Validated, CondTrue, SpecValid, Note(x.valid, x.generation))
    && Holds(b, RetryHeld, CondTrue, HoldReason(w, c.status, o), Note(HoldText(w, c, o, x), x.generation))
  }

  /** A hold changes no other condition. */
  lemma HoldLeaves(w: World, b: Copy, r: Option<Rehearsal>, o: Obs, x: Words) returns (n: Copy)
    ensures var c := Prepared(b, r, x);
            n == Hold(w.spec, c, HoldReason(w, c.status, o), HoldText(w, c, o, x), x)
    ensures SameOutcome(b.status, n.status) && (SameConditions(n, b) <==> NothingNew(w, b, r, o, x))
  {
    var c := Prepared(b, r, x);
    var reason, text := HoldReason(w, c.status, o), HoldText(w, c, o, x);
    n := Hold(w.spec, c, reason, text, x);
    SetTwo(b.status.conds, Validated, Condition(CondTrue, SpecValid), RetryHeld, Condition(CondTrue, reason));
    SetTwo(b.notes, Validated, Note(x.valid, x.generation), RetryHeld, Note(text, x.generation));
    var valid, held := Condition(CondTrue, SpecValid), Condition(CondTrue, reason);
    assert n.status.conds == b.status.conds[Validated := valid][RetryHeld := held];
    assert n.notes == b.notes[Validated := Note(x.valid, x.generation)][RetryHeld := Note(text, x.generation)];
  }

  lemma SetTwo<K, V>(m: map<K, V>, a: K, x: V, b: K, y: V)
    requires a != b
    ensures m[a := x][b := y] == m <==> a in m && m[a] == x && b in m && m[b] == y
  {
    var n := m[a := x][b := y];
    assert n[a] == x && n[b] == y;
  }

  lemma BudgetEnds(b: Copy, r: Option<Rehearsal>, x: Words)
    requires !Terminal(b.status)
    ensures var n := BudgetFailed(Prepared(b, r, x), x);
            True(n.status, CondType.Failed) && !True(n.status, Complete) && !SameConditions(n, b)
  {
  }

  /** A retry from a stale copy, which has seen no outcome, leaves Complete and Failed on the server as
      they are if and only if one of these holds. The copy's budget is spent, and the server holds
      Failed alone. Or it is not, and the server holds neither; or a locked patch comes first; or the
      copy already holds exactly the conditions the pass would set. */
  lemma StaleRetryKeepsOutcomeIff(w: World, b: Copy, r: Option<Rehearsal>, o: Obs, x: Words, cur: Copy)
    requires b.status.attempts >= 1 && Worker(b.status.attempts + 1) !in w.jobs && !Terminal(b.status)
    ensures var m := Prepared(b, r, x).status;
            SameOutcome(cur.status, Left(w, b, r, o, x, cur).status) <==>
              if FailsAtOnce(w, m) then True(cur.status, CondType.Failed) && !True(cur.status, Complete)
              else !Terminal(cur.status) || LockedFirst(w, m, o) || NothingNew(w, b, r, o, x)
  {
    var c := Prepared(b, r, x);
    if FailsAtOnce(w, c.status) {
      BudgetEnds(b, r, x);
    } else if !LockedFirst(w, c.status, o) {
      var n := HoldLeaves(w, b, r, o, x);
    }
  }

  // ------------------------------------------------------------------ how an outcome is lost

  /** The failed worker's pod is left, and no verdict is due. */
  predicate PodHolds(w: World, m: Status) {
    m.attempts >= 1 && Worker(m.attempts + 1) !in w.jobs && !Terminal(m) && HasPod(w, Worker(m.attempts)) &&
    OnFailurePath(m) && m.gate.value.verdict.Undecided? && !VerdictOverdue(m, w.clock)
  }

  lemma PodHoldIs(w: World, b: Copy, r: Option<Rehearsal>, o: Obs, x: Words)
    requires PodHolds(w, b.status)
    ensures var c := Prepared(b, r, x);
            && !FailsAtOnce(w, c.status) && !LockedFirst(w, c.status, o)
            && HoldReason(w, c.status, o) == WorkerPodRemains && HoldText(w, c, o, x) == x.hold
  {
    var c := Prepared(b, r, x);
    assert c.status.attempts == b.status.attempts && c.status.gate == b.status.gate;
  }

  /** A hold for the failed worker's pod, set from a copy that has none, erases an outcome. */
  lemma StaleHoldErasesOutcome(w: World, b: Copy, r: Option<Rehearsal>, o: Obs, x: Words, cur: Copy)
    requires PodHolds(w, b.status) && RetryHeld !in b.status.conds && Terminal(cur.status)
    ensures !SameOutcome(cur.status, Left(w, b, r, o, x, cur).status)
  {
    PodHoldIs(w, b, r, o, x);
    StaleRetryKeepsOutcomeIff(w, b, r, o, x, cur);
  }

  /** So does one of the same reason whose message changed, as when the pod begins to terminate, or
      whose generation did, after an edit of the spec. */
  lemma StaleMessageErasesOutcome(w: World, b: Copy, r: Option<Rehearsal>, o: Obs, x: Words, cur: Copy, note: Note)
    requires PodHolds(w, b.status) && Holds(b, RetryHeld, CondTrue, WorkerPodRemains, note) && Terminal(cur.status)
    requires note.text != x.hold || note.generation != x.generation
    ensures !SameOutcome(cur.status, Left(w, b, r, o, x, cur).status)
  {
    PodHoldIs(w, b, r, o, x);
    StaleRetryKeepsOutcomeIff(w, b, r, o, x, cur);
  }

  /** A stale copy whose budget is spent turns a Migration that is Complete into a failed one. */
  lemma StaleFailureFlipsComplete(w: World, b: Copy, r: Option<Rehearsal>, o: Obs, x: Words, cur: Copy)
    requires b.status.attempts >= 1 && Worker(b.status.attempts + 1) !in w.jobs && !Terminal(b.status)
    requires b.status.gate.None? && BudgetSpent(w.spec, b.status) && True(cur.status, Complete)
    ensures var v := Left(w, b, r, o, x, cur).status; !True(v, Complete) && True(v, CondType.Failed)
  {
    BudgetEnds(b, r, x);
  }
}
