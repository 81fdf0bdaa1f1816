/** The verdict deadline: no pass that reaches the gate 15 minutes after a failure leaves the verdict
    open. */
module Deadline {
  import opened Text
  import opened Conditions
  import opened Cluster
  import opened Passes
  import opened Runs
  import opened Invariant
  import opened Rules
  import opened PassRules
  import opened GateRules
  import opened AttemptRules
  import opened Histories
  import GateLog
  import Steps

  /** No verdict is pending. */
  predicate Closed(m: Status) { m.gate.Some? ==> !m.gate.value.verdict.Undecided? }

  lemma {:induction false} StatusAfter(w: World, ws: seq<Write>)
    requires Closed(w.status) && forall x :: x in ws && x.Patch? ==> Closed(x.status)
    ensures Closed(ApplyAll(w, ws).status)
    decreases |ws|
  {
    if ws != [] {
      assert ws[0] in ws;
      StatusAfter(Apply(w, ws[0]), ws[1..]);
    }
  }

  /** Every status the writes carry is closed. */
  predicate AllClosed(ws: seq<Write>) { forall x :: x in ws && x.Patch? ==> Closed(x.status) }

  lemma HoldsClosed(s: Spec, m: Status, r: Reason)
    requires Closed(m)
    ensures Closed(SetHold(s, m, r)) && Closed(Probing(s, m))
  {
  }

  lemma ProbeGateClosed(w: World, m: Status, o: Obs, attempt: nat)
    requires attempt >= 1 && Closed(m)
    ensures AllClosed(ProbeGate(w, m, o, attempt).ws)
    ensures ProbeGate(w, m, o, attempt).Cleared? ==> ProbeGate(w, m, o, attempt).m == m
  {
    forall r: Reason ensures Closed(SetHold(w.spec, m, r)) && Closed(Probing(w.spec, m)) {
      HoldsClosed(w.spec, m, r);
    }
  }

  /** ProbeGateClosed, with the step named. */
  lemma ClosedStep(w: World, m: Status, o: Obs, attempt: nat) returns (g: GateStep)
    requires attempt >= 1 && Closed(m)
    ensures g == ProbeGate(w, m, o, attempt) && AllClosed(g.ws) && (g.Cleared? ==> g.m == m)
  {
    ProbeGateClosed(w, m, o, attempt);
    g := ProbeGate(w, m, o, attempt);
  }

  lemma SettleClosed(w: World, m: Status)
    requires Closed(m)
    ensures AllClosed(Settle(w, m))
  {
  }

  lemma OpensClosed(n: Status, ws: seq<Write>)
    requires Closed(n) && AllClosed(ws)
    ensures Opens([Patch(n, true)] + ws)
  {
  }

  lemma ConcatClosed(a: seq<Write>, b: seq<Write>)
    requires AllClosed(a) && AllClosed(b)
    ensures AllClosed(a + b)
  {
  }

  /** The first write is a status with no verdict pending, and so is every later status. */
  predicate Opens(ws: seq<Write>) { |ws| > 0 && ws[0].Patch? && AllClosed(ws) }

  /** The overdue verdict is Counted before anything else is looked at. */
  lemma OverdueGate(w: World, m: Status, o: Obs)
    requires m.attempts >= 1 && OnFailurePath(m) && VerdictOverdue(m, w.clock)
    ensures var n := Decide(w.spec, m, Counted);
            var x := Patch(n, true);
            RetryGatePass(w, m, o, m.attempts + 1) ==
              if DecideFails(w.spec, m, Counted) then Held([x])
              else Behind([x], ProbeGate(Apply(w, x), n, o, m.attempts + 1))
  {
  }

  lemma BehindCloses(w: World, n: Status, g: GateStep)
    requires Closed(n) && AllClosed(g.ws) && (g.Cleared? ==> g.m == n)
    ensures Opens(AfterGate(w, Behind([Patch(n, true)], g)))
  {
    OpensClosed(n, g.ws);
    if g.Cleared? {
      SettleClosed(w, n);
      ConcatClosed([Patch(n, true)] + g.ws, Settle(w, n));
    }
  }

  lemma CountedCloses(s: Spec, m: Status)
    requires m.gate.Some?
    ensures Closed(Decide(s, m, Counted))
  {
  }

  /** q holds of every sequence of writes that opens closed. */
  ghost predicate CoversOpens(q: seq<Write> -> bool) {
    forall ws {:trigger Opens(ws)} :: Opens(ws) ==> q(ws)
  }

  lemma OverdueCloses(q: seq<Write> -> bool, w: World, m: Status, g: GateStep)
    requires CoversOpens(q) && m.gate.Some? && AllClosed(g.ws) && (g.Cleared? ==> g.m == Decide(w.spec, m, Counted))
    ensures q(AfterGate(w, Behind([Patch(Decide(w.spec, m, Counted), true)], g)))
    ensures q(AfterGate(w, Held([Patch(Decide(w.spec, m, Counted), true)])))
  {
    var n := Decide(w.spec, m, Counted);
    CountedCloses(w.spec, m);
    BehindCloses(w, n, g);
    BehindCloses(w, n, Held([]));
    assert [Patch(n, true)] + [] == [Patch(n, true)];
    assert Opens(AfterGate(w, Held([Patch(n, true)])));
  }

  lemma RecordCloses(q: seq<Write> -> bool, m: Status)
    requires CoversOpens(q) && m.attempts >= 1
    ensures q(RecordAttempt(m))
  {
    assert Opens(RecordAttempt(m));
  }

  lemma {:induction false} FirstPatchCloses(w: World, ws: seq<Write>)
    requires Opens(ws)
    ensures Closed(ApplyAll(w, ws).status)
  {
    assert ws[0] in ws;
    assert forall x :: x in ws[1..] ==> x in ws;
    StatusAfter(Apply(w, ws[0]), ws[1..]);
  }

  lemma StartsAt(w: World, m: Status, o: Obs)
    requires m.attempts >= 1 && OnFailurePath(m) && m.gate.value.verdict.Undecided?
    ensures StartAttempt(w, m, o) ==
              if Worker(m.attempts + 1) in w.jobs then RecordAttempt(m)
              else AfterGate(w, RetryGatePass(w, m, o, m.attempts + 1))
  {
  }

  lemma StartCloses(q: seq<Write> -> bool, w: World, m: Status, o: Obs)
    requires CoversOpens(q) && m.attempts >= 1 && OnFailurePath(m) && VerdictOverdue(m, w.clock)
    ensures q(StartAttempt(w, m, o))
  {
    StartsAt(w, m, o);
    if Worker(m.attempts + 1) in w.jobs {
      RecordCloses(q, m);
    } else {
      var n := Decide(w.spec, m, Counted);
      OverdueGate(w, m, o);
      CountedCloses(w.spec, m);
      var g := ClosedStep(Apply(w, Patch(n, true)), n, o, m.attempts + 1);
      OverdueCloses(q, w, m, g);
    }
  }

  /** The writes of an active pass over a pending, overdue verdict. */
  lemma OverduePass(w: World, o: Obs)
    requires Inv(w) && Live(w) && w.status.gate.Some? && VerdictOverdue(w.status, w.clock)
    ensures Closed(ApplyAll(w, ActivePass(w, o)).status)
  {
    var m := SetCond(w.status, Validated, CondTrue, SpecValid);
    var c := CancelRehearsal(w, m, o, NoFault);
    var v := ApplyAll(w, c.ws);
    CancelShape(w, m, o, NoFault);
    assert forall t :: t != Validated ==> SameCond(w.status, m, t);
    NotResumed(w, m);
    StartCloses(Opens, v, c.m, o);
    FirstPatchCloses(v, StartAttempt(v, c.m, o));
    ApplyAllConcat(w, c.ws, StartAttempt(v, c.m, o));
  }

  /** A recorded failure leaves nothing of the finish path. */
  lemma NotResumed(w: World, m: Status)
    requires Inv(w) && w.status.gate.Some? && SameCond(w.status, m, CloneCompleted)
    ensures JobKey.Reown !in w.jobs && !(!w.spec.follow && True(m, CloneCompleted))
    ensures !w.spec.dryRun && w.status.attempts >= 1 && w.status.jobName.None? && OnFailurePath(w.status)
  {
  }

  /** In every run, a pass on an active Migration whose verdict is 15 minutes overdue settles it. */
  lemma OverdueIsDecided(w0: World, ls: seq<Label>, o: Obs)
    requires Init(w0)
    requires var w := Run(w0, ls);
             !w.gone && Live(w.(finalizer := true)) && w.status.gate.Some? && VerdictOverdue(w.status, w.clock)
    ensures Closed(ApplyAll(Run(w0, ls), Pass(Run(w0, ls), o)).status)
  {
    var w := Run(w0, ls);
    InvAlways(w0, ls);
    assert w.status != EMPTY_STATUS;
    if w.spec.follow && !w.finalizer {
      var v := Apply(w, AddFinalizer);
      Steps.SameKeeps(w, v);
      OverduePass(v, o);
      assert ApplyAll(w, [AddFinalizer]) == v by { assert [AddFinalizer][1..] == []; }
      ApplyAllConcat(w, [AddFinalizer], ActivePass(v, o));
    } else {
      OverduePass(w, o);
    }
  }
}
