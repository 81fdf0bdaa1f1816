/** What the reconciler promises over whole runs: passes that crash after any landed write, and any
    outside step between two of them. */
module Safety {
  import opened Text
  import opened Conditions
  import opened Samples
  import opened Cluster
  import opened Passes
  import opened Runs
  import opened Invariant
  import opened Rules
  import opened Histories
  import GateLog

  // ------------------------------------------------------------------ the retry budget

  /** The budget holds in every world of every run. While backoffLimit is never lowered, recorded
      attempts stay within it and the refunds; a recorded worker's own attempt is never refunded. */
  lemma WithinBudget(w0: World, ls: seq<Label>)
    requires Init(w0)
    ensures var w := Run(w0, ls);
            && w.status.exempt <= w.status.attempts
            && (w.status.jobName.Some? ==> w.status.exempt <= w.status.attempts - 1)
            && (w.hist.limitKept ==> w.status.attempts <= w.spec.backoffLimit + 1 + w.status.exempt)
  {
    InvAlways(w0, ls);
  }

  /** A worker is created only within the budget, as the next attempt, with no handover Job in sight
      and, after the first, behind a cleared gate whose verdict is settled. */
  lemma WorkerStarts(w0: World, ls: seq<Label>, i: nat)
    requires Init(w0) && i < |Events(w0, ls)|
    requires Events(w0, ls)[i].x.CreateJob? && Events(w0, ls)[i].x.key.Worker?
    ensures var e := Events(w0, ls)[i];
            var n := e.x.key.n;
            && n == e.v.status.attempts + 1
            && e.v.status.attempts - e.v.status.exempt < e.v.spec.backoffLimit + 1
            && JobKey.Reown !in e.v.jobs
            && (n >= 2 ==>
                  GateCleared(e.v, e.o, n) && (e.v.status.gate.Some? ==> e.v.status.gate.value.verdict != Undecided))
  {
    EveryWriteIsLawful(w0, ls, i);
  }

  predicate Refunding(e: Event) { Exempted(After(e)) && !Exempted(e.v.status) }

  /** exemptAttempts counts the landed Exempt verdicts and attempts the landed records, exactly. */
  lemma CountersAreHistories(w0: World, ls: seq<Label>)
    requires Init(w0)
    ensures Run(w0, ls).status.exempt == Count(Refunding, Events(w0, ls))
    ensures Run(w0, ls).status.attempts == Count(Recording, Events(w0, ls))
  {
    var es := Events(w0, ls);
    RunsAreTrails(w0, ls);
    EventsChain(w0, ls);
    assert es[..|es|] == es;
    assert forall k :: 0 <= k < |es| ==> CountsKept(es[k]);
    CountAlong((m: Status) => m.exempt, Refunding, es, w0.status, |es|);
    CountAlong((m: Status) => m.attempts, Recording, es, w0.status, |es|);
  }

  // ------------------------------------------------------------------ the gate's record

  predicate Decided(m: Status) { m.gate.Some? && !m.gate.value.verdict.Undecided? }

  /** A verdict stands until the next attempt is recorded: it is given once, and the attempt is
      refunded once at most. */
  lemma VerdictStands(w0: World, ls: seq<Label>, i: nat, j: nat)
    requires Init(w0) && i <= j <= |Events(w0, ls)|
    requires Decided(Before(Events(w0, ls), w0.status, i))
    requires forall k :: i <= k < j ==> !Recording(Events(w0, ls)[k])
    ensures Before(Events(w0, ls), w0.status, j).gate == Before(Events(w0, ls), w0.status, i).gate
    ensures Before(Events(w0, ls), w0.status, j).exempt == Before(Events(w0, ls), w0.status, i).exempt
  {
    RunsAreTrails(w0, ls);
    assert forall k :: i <= k < j ==> VerdictKept(Events(w0, ls)[k]);
    KeptAlong(Decided, (m: Status) => (m.gate, m.exempt), Events(w0, ls), w0.status, i, j);
  }

  lemma RefundByRule(e: Event)
    requires Lawful(e.v, e.o, e.x) && After(e).exempt != e.v.status.exempt
    ensures e.x.Patch? && e.x.locked && e.v.status.gate.Some? && e.v.status.gate.value.verdict.Undecided? &&
            Outlived(e.v, e.o)
  {
    if e.x.Patch? {
      PatchObeys(e);
    } else {
      OnlyPatches(e);
    }
  }

  /** A refund lands under the lock, on an undecided verdict, and only for a SyncRep wait under
      pgcopydb's own name that began 30 s or more before the failure. */
  lemma RefundNeedsAWait(w0: World, ls: seq<Label>, i: nat)
    requires Init(w0) && i < |Events(w0, ls)|
    requires After(Events(w0, ls)[i]).exempt != Events(w0, ls)[i].v.status.exempt
    ensures var e := Events(w0, ls)[i];
            && e.x.Patch? && e.x.locked && e.v.status.gate.Some? && e.v.status.gate.value.verdict.Undecided?
            && CensusRead(e.v, e.o).Some?
            && var c := CensusRead(e.v, e.o).value;
               c.named && c.syncRep > 0 && 0 < c.syncRepSince <= e.v.status.gate.value.failedAt - 30
  {
    EveryWriteIsLawful(w0, ls, i);
    RefundByRule(Events(w0, ls)[i]);
  }

  /** The gate's record names the last attempt and stands beside no recorded worker. */
  lemma GateNamesTheFailure(w0: World, ls: seq<Label>)
    requires Init(w0) && Run(w0, ls).status.gate.Some?
    ensures var m := Run(w0, ls).status; m.gate.value.failedAttempt == m.attempts && m.jobName.None? && m.attempts >= 1
  {
    InvAlways(w0, ls);
  }

  // ------------------------------------------------------------------ the cutover

  /** An acting pass whose status write lands measures whether the lag is below the threshold. */
  predicate Measures(e: Event) { e.x.Patch? && Acting(e.v, e.o) }

  function Measurement(e: Event): Option<bool> {
    if Measures(e) then Some(NowBelow(e.v, e.o)) else None
  }

  /** The ConfirmingCatchUp latch is exactly the last landed measurement, over suspends, retries and
      restarts alike. */
  lemma LatchIsLastMeasurement(w0: World, ls: seq<Label>, i: nat)
    requires Init(w0) && i <= |Events(w0, ls)|
    ensures LagSeenBelow(Before(Events(w0, ls), w0.status, i)) <==>
              LastSet(Measurement, Events(w0, ls)[..i]) == Some(true)
  {
    RunsAreTrails(w0, ls);
    assert forall k :: 0 <= k < |Events(w0, ls)| ==> LatchKept(Events(w0, ls)[k]);
    SetAlong(LagSeenBelow, Measurement, Events(w0, ls), w0.status, i);
  }

  lemma CutoverByRule(e: Event)
    requires Lawful(e.v, e.o, e.x) && e.x.SetEndpos?
    ensures CutoverRule(e.v, e.o)
  {
  }

  /** The cutover endpos is asked for only after the base copy, when the lag is at or below the
      threshold now and was at the last landed measurement, with approval unless the mode is
      Automatic, and never while an endpos is held. */
  lemma CutoverIsConfirmed(w0: World, ls: seq<Label>, i: nat)
    requires Init(w0) && i < |Events(w0, ls)| && Events(w0, ls)[i].x.SetEndpos?
    ensures var e := Events(w0, ls)[i];
            && Acting(e.v, e.o) && NowBelow(e.v, e.o) && LastSet(Measurement, Events(w0, ls)[..i]) == Some(true)
            && (e.v.spec.automatic || e.v.spec.approved) && !EndposHeld(e.v.status)
  {
    EveryWriteIsLawful(w0, ls, i);
    CutoverByRule(Events(w0, ls)[i]);
    EventsChain(w0, ls);
    LatchIsLastMeasurement(w0, ls, i);
  }

  function Endpos(m: Status): string { if m.repl.Some? then m.repl.value.endpos else "" }

  lemma EndposAlong(es: seq<Event>, s: Status, i: nat, j: nat)
    requires Trail(es, s) && i <= j <= |es|
    requires EndposHeld(Before(es, s, i))
    ensures EndposHeld(Before(es, s, j)) && Endpos(Before(es, s, j)) == Endpos(Before(es, s, i))
  {
    assert forall k :: 0 <= k < |es| ==> EndposKept(es[k]);
    KeptAlong(EndposHeld, Endpos, es, s, i, j);
  }

  /** Once the status holds an endpos, nothing clears it, changes it or asks for another. */
  lemma EndposStays(w0: World, ls: seq<Label>, i: nat, j: nat)
    requires Init(w0) && i <= j <= |Events(w0, ls)| && EndposHeld(Before(Events(w0, ls), w0.status, i))
    ensures EndposHeld(Before(Events(w0, ls), w0.status, j))
    ensures Endpos(Before(Events(w0, ls), w0.status, j)) == Endpos(Before(Events(w0, ls), w0.status, i))
    ensures forall k :: i <= k < j ==> !Events(w0, ls)[k].x.SetEndpos?
  {
    RunsAreTrails(w0, ls);
    EndposAlong(Events(w0, ls), w0.status, i, j);
    forall k | i <= k < j ensures !Events(w0, ls)[k].x.SetEndpos? {
      EndposAlong(Events(w0, ls), w0.status, i, k);
      assert EndposKept(Events(w0, ls)[k]);
    }
  }

  // ------------------------------------------------------------------ the finish path

  /** No verify, handover or non-deletion cleanup Job exists before a worker exited 0. */
  lemma FinishJobsAfterExit(w0: World, ls: seq<Label>)
    requires Init(w0)
    ensures var w := Run(w0, ls);
            (JobKey.Verify in w.jobs || JobKey.Reown in w.jobs || (JobKey.Cleanup in w.jobs && !w.deleting)) ==>
            w.hist.exited
  {
    InvAlways(w0, ls);
  }

  /** Cleanup runs on a deletion, or behind a proven drain and a complete requested handover: never
      beside a refuted drain or a failed handover. */
  lemma CleanupIsEarned(w0: World, ls: seq<Label>, i: nat)
    requires Init(w0) && i < |Events(w0, ls)|
    requires Events(w0, ls)[i].x.CreateJob? && Events(w0, ls)[i].x.key.Cleanup?
    ensures var v := Events(w0, ls)[i].v;
            || v.deleting
            || (v.hist.exited && JobIs(v, JobKey.Verify, Succeeded) &&
                (v.spec.reown ==> JobIs(v, JobKey.Reown, Succeeded)))
  {
    EveryWriteIsLawful(w0, ls, i);
    CreateObeys(Events(w0, ls)[i]);
  }

  lemma CompletesByRule(e: Event)
    requires Lawful(e.v, e.o, e.x) && True(After(e), Complete) && !True(e.v.status, Complete)
    ensures CompletesRule(e.v, e.o, After(e))
  {
    if e.x.Patch? {
      PatchObeys(e);
    } else {
      OnlyPatches(e);
    }
  }

  /** Complete, other than by a dry run, means: a worker exited 0, the requested handover is complete,
      every requested compare finished, and of a live migration the drain is proven and cleanup over. */
  lemma CompleteIsEarned(w0: World, ls: seq<Label>, i: nat)
    requires Init(w0) && i < |Events(w0, ls)|
    requires True(After(Events(w0, ls)[i]), Complete) && !True(Events(w0, ls)[i].v.status, Complete)
    requires !Events(w0, ls)[i].v.spec.dryRun
    ensures var e := Events(w0, ls)[i];
            && e.v.hist.exited && (e.v.spec.reown ==> JobIs(e.v, JobKey.Reown, Succeeded))
            && Compared(e.v, After(e))
            && (e.v.spec.follow ==> JobIs(e.v, JobKey.Verify, Succeeded) && CleanupOver(e.v, e.o))
  {
    EveryWriteIsLawful(w0, ls, i);
    CompletesByRule(Events(w0, ls)[i]);
  }

  lemma TerminalAlong(es: seq<Event>, s: Status, i: nat, j: nat)
    requires Trail(es, s) && i <= j <= |es|
    requires Terminal(Before(es, s, i))
    ensures Terminal(Before(es, s, j)) && (True(Before(es, s, j), Complete) <==> True(Before(es, s, i), Complete))
  {
    assert forall k :: 0 <= k < |es| ==> TerminalKept(es[k]);
    KeptAlong(Terminal, (m: Status) => True(m, Complete), es, s, i, j);
  }

  /** A terminal Migration stays as it ended and starts nothing, a deletion's cleanup aside. */
  lemma TerminalIsAbsorbing(w0: World, ls: seq<Label>, i: nat, j: nat)
    requires Init(w0) && i <= j <= |Events(w0, ls)| && Terminal(Before(Events(w0, ls), w0.status, i))
    ensures Terminal(Before(Events(w0, ls), w0.status, j))
    ensures True(Before(Events(w0, ls), w0.status, j), Complete) <==>
              True(Before(Events(w0, ls), w0.status, i), Complete)
    ensures forall k :: i <= k < j && Events(w0, ls)[k].x.CreateJob? ==>
              Events(w0, ls)[k].v.deleting && Events(w0, ls)[k].x.key.Cleanup?
  {
    RunsAreTrails(w0, ls);
    TerminalAlong(Events(w0, ls), w0.status, i, j);
    forall k | i <= k < j && Events(w0, ls)[k].x.CreateJob?
      ensures Events(w0, ls)[k].v.deleting && Events(w0, ls)[k].x.key.Cleanup?
    {
      TerminalAlong(Events(w0, ls), w0.status, i, k);
      assert TerminalKept(Events(w0, ls)[k]);
    }
  }

  /** Complete and Failed exclude each other, and a retry hold is on in neither, nor while suspended. */
  lemma OutcomesExclude(w0: World, ls: seq<Label>)
    requires Init(w0)
    ensures var m := Run(w0, ls).status;
            && !(True(m, Complete) && True(m, CondType.Failed))
            && (True(m, RetryHeld) ==> !Terminal(m) && m.phase != Phase.Suspended)
  {
    InvAlways(w0, ls);
  }
}
