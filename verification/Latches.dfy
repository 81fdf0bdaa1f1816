/** The latches that live in condition reasons and in the rehearsal's status, over whole runs. */
module Latches {
  import opened Text
  import opened Conditions
  import opened Samples
  import opened Cluster
  import opened Passes
  import opened Runs
  import opened Invariant
  import opened Rules
  import opened Histories

  // ------------------------------------------------------------------ the start-over latch

  /** What a landed patch makes of the start-over: a failed worker's hand-over sets it to whether its
      log names a lost snapshot, and the next recorded attempt, like a terminal failure, clears it. */
  function StartOver(e: Event): Option<bool> {
    if !e.x.Patch? then None
    else if True(After(e), CondType.Failed) || Recording(e) then Some(false)
    else if HandsOver(e.v, After(e)) then Some(SnapshotFound(e.o))
    else None
  }

  predicate LossSeen(m: Status) { SnapshotLostSeen(m) && !True(m, CondType.Failed) }

  predicate StartOverKept(e: Event) {
    LossSeen(After(e)) == if StartOver(e).Some? then StartOver(e).value else LossSeen(e.v.status)
  }

  lemma StartOverByRule(e: Event)
    requires e.x.Patch? && StartOverRule(e.v, e.o, e.x.status) && OutcomeRule(e.v, e.o, e.x.status) &&
             AttemptRule(e.v, e.x.status)
    ensures StartOverKept(e)
  {
  }

  lemma StartOverIsKept(e: Event)
    requires Lawful(e.v, e.o, e.x)
    ensures StartOverKept(e)
  {
    if e.x.Patch? {
      PatchObeys(e);
      StartOverByRule(e);
    } else {
      OnlyPatches(e);
    }
  }

  /** The start-over latch is what the last failure, record or terminal verdict made of it: holds,
      gate verdicts, suspends and crashes between create and record leave it alone. */
  lemma StartOverIsLastFailure(w0: World, ls: seq<Label>, i: nat)
    requires Init(w0) && i <= |Events(w0, ls)|
    ensures LossSeen(Before(Events(w0, ls), w0.status, i)) <==> LastSet(StartOver, Events(w0, ls)[..i]) == Some(true)
  {
    var es := Events(w0, ls);
    EventsChain(w0, ls);
    forall k | 0 <= k < |es| ensures StartOverKept(es[k]) {
      EveryWriteIsLawful(w0, ls, k);
      StartOverIsKept(es[k]);
    }
    SetAlong(LossSeen, StartOver, es, w0.status, i);
  }

  lemma WorkerByRule(e: Event)
    requires e.x.CreateJob? && e.x.key.Worker? && CreateRule(e.v, e.o, e.x.key, e.x.job)
    ensures !Terminal(e.v.status)
    ensures e.x.job.built == BuiltWorker(e.x.key.n == 1 || (SnapshotLostSeen(e.v.status) && e.v.spec.dropIfExists))
  {
  }

  /** A retry is built to start over if and only if the last failed attempt's log named a lost
      snapshot, and dropIfExists is still set as the Job is built. */
  lemma RestartIsLatched(w0: World, ls: seq<Label>, i: nat)
    requires Init(w0) && i < |Events(w0, ls)|
    requires Events(w0, ls)[i].x.CreateJob? && Events(w0, ls)[i].x.key.Worker? && Events(w0, ls)[i].x.key.n >= 2
    ensures var e := Events(w0, ls)[i];
            e.x.job.built == BuiltWorker(LastSet(StartOver, Events(w0, ls)[..i]) == Some(true) && e.v.spec.dropIfExists)
  {
    var e := Events(w0, ls)[i];
    EveryWriteIsLawful(w0, ls, i);
    CreateObeys(e);
    WorkerByRule(e);
    EventsChain(w0, ls);
    StartOverIsLastFailure(w0, ls, i);
  }

  // ------------------------------------------------------------------ the refused clone-done marker

  predicate CopyDone(m: Status) { True(m, CloneCompleted) }

  /** What lifts a refusal: this pass's own sample owing no table, a new attempt, a hand-over that
      latches a lost snapshot, or the Migration's failure. */
  predicate Lifts(e: Event) {
    || Recording(e) || True(After(e), CondType.Failed)
    || (HandsOver(e.v, After(e)) && SnapshotFound(e.o) && SnapshotLostSeen(After(e)))
    || (WorkerIs(e.v, Running) && CopyDone(After(e)) && OwesNone(e.o.now) &&
        PassSample(e.v.spec, e.v.status, e.o) == e.o.now)
  }

  lemma RefusalByRule(e: Event)
    requires e.x.Patch? && CopyRule(e.v, e.o, e.x.status) && StartOverRule(e.v, e.o, e.x.status) && e.v.spec.follow
    requires TablesEmptySeen(e.v.status) && !Lifts(e)
    ensures TablesEmptySeen(After(e))
  {
  }

  lemma RefusalIsKept(e: Event)
    requires Lawful(e.v, e.o, e.x) && e.v.spec.follow && TablesEmptySeen(e.v.status) && !Lifts(e)
    ensures TablesEmptySeen(After(e))
  {
    if e.x.Patch? {
      PatchObeys(e);
      RefusalByRule(e);
    }
  }

  lemma EnvKeepsImmutable(w: World, e: Env)
    ensures SameImmutable(w.spec, EnvStep(w, e).spec)
  {
  }

  lemma NextKeepsImmutable(w: World, l: Label)
    ensures SameImmutable(w.spec, Next(w, l).spec)
  {
    match l
    case PassL(o, n) =>
      if ValidObs(w, o) {
        WritesKeepWorld(w, Prefix(Pass(w, o), n));
      }
    case EnvL(e) => EnvKeepsImmutable(w, e);
  }

  lemma {:induction false} ImmutableStays(w0: World, ls: seq<Label>)
    ensures SameImmutable(w0.spec, Run(w0, ls).spec)
    decreases |ls|
  {
    if ls != [] {
      ImmutableStays(w0, ls[..|ls| - 1]);
      NextKeepsImmutable(Run(w0, ls[..|ls| - 1]), ls[|ls| - 1]);
    }
  }

  /** Some pass of the run read this. */
  predicate ReadIn(ls: seq<Label>, o: Obs) { exists k :: 0 <= k < |ls| && ls[k].PassL? && ls[k].o == o }

  /** Every event has the immutable fields of the spec, and the reading of a pass. */
  predicate Grounded(s: Spec, ls: seq<Label>, es: seq<Event>) {
    forall i :: 0 <= i < |es| ==> SameImmutable(s, es[i].v.spec) && ReadIn(ls, es[i].o)
  }

  lemma GroundedOn(s: Spec, t: Spec, ls: seq<Label>, a: seq<Event>, b: seq<Event>)
    requires ls != [] && Grounded(s, ls[..|ls| - 1], a) && SameImmutable(s, t)
    requires forall i :: 0 <= i < |b| ==> ls[|ls| - 1].PassL? && b[i].o == ls[|ls| - 1].o && b[i].v.spec == t
    ensures Grounded(s, ls, a + b)
  {
    var es := a + b;
    forall i | 0 <= i < |es| ensures SameImmutable(s, es[i].v.spec) && ReadIn(ls, es[i].o) {
      if i < |a| {
        assert es[i] == a[i];
        var k :| 0 <= k < |ls| - 1 && ls[..|ls| - 1][k].PassL? && ls[..|ls| - 1][k].o == a[i].o;
        assert ls[k] == ls[..|ls| - 1][k];
      } else {
        assert es[i] == b[i - |a|];
      }
    }
  }

  lemma {:induction false} EventsGrounded(w0: World, ls: seq<Label>) returns (es: seq<Event>)
    ensures es == Events(w0, ls) && Grounded(w0.spec, ls, es)
    decreases |ls|
  {
    if ls == [] {
      es := [];
    } else {
      var a := EventsGrounded(w0, ls[..|ls| - 1]);
      var b, w := LastEvents(w0, ls, a);
      ImmutableStays(w0, ls[..|ls| - 1]);
      GroundedOn(w0.spec, w.spec, ls, a, b);
      es := a + b;
    }
  }

  lemma EventsKeepImmutable(w0: World, ls: seq<Label>, i: nat)
    requires i < |Events(w0, ls)|
    ensures SameImmutable(w0.spec, Events(w0, ls)[i].v.spec)
  {
    var es := EventsGrounded(w0, ls);
    assert SameImmutable(w0.spec, es[i].v.spec);
  }

  /** A refused clone-done marker of a live migration stays refused until a lift: a missing sample,
      the marker scrolling out of the log, the stage probe and the worker's exit 0 are none. */
  lemma RefusalStands(w0: World, ls: seq<Label>, i: nat, j: nat)
    requires Init(w0) && w0.spec.follow && i <= j <= |Events(w0, ls)|
    requires TablesEmptySeen(Before(Events(w0, ls), w0.status, i))
    requires forall k :: i <= k < j ==> !Lifts(Events(w0, ls)[k])
    ensures TablesEmptySeen(Before(Events(w0, ls), w0.status, j))
  {
    var es := Events(w0, ls);
    EventsChain(w0, ls);
    forall k | i <= k < j && TablesEmptySeen(es[k].v.status) ensures TablesEmptySeen(After(es[k])) {
      EveryWriteIsLawful(w0, ls, k);
      EventsKeepImmutable(w0, ls, k);
      RefusalIsKept(es[k]);
    }
    KeptAlong(TablesEmptySeen, (m: Status) => true, es, w0.status, i, j);
  }

  // ------------------------------------------------------------------ a finished clone-only copy

  /** Once a clone-only Migration records CloneCompleted, it stays True and no worker is created. */
  lemma CloneOnlyStays(w0: World, ls: seq<Label>, i: nat, j: nat)
    requires Init(w0) && !w0.spec.follow && i <= j <= |Events(w0, ls)|
    requires CopyDone(Before(Events(w0, ls), w0.status, i))
    ensures CopyDone(Before(Events(w0, ls), w0.status, j))
    ensures j < |Events(w0, ls)| ==> !(Events(w0, ls)[j].x.CreateJob? && Events(w0, ls)[j].x.key.Worker?)
  {
    var es := Events(w0, ls);
    RunsAreTrails(w0, ls);
    forall k | 0 <= k < |es| ensures CloneKept(es[k]) && !es[k].v.spec.follow {
      assert Kept(es[k]);
      EventsKeepImmutable(w0, ls, k);
    }
    KeptAlong(CopyDone, (m: Status) => true, es, w0.status, i, j);
  }

  // ------------------------------------------------------------------ the rehearsal

  /** A landed write that re-arms: no rehearsal is requested and no pod of one is left. */
  predicate Rearms(e: Event) {
    e.x.Patch? && Armed(e.v.status) && !Armed(After(e)) && !e.v.spec.rehearsal && !RehearsalPod(e.v)
  }

  lemma ArmedByRule(e: Event)
    requires e.x.Patch? && RunRule(e.v, e.x.status) && Armed(e.v.status) && !Rearms(e)
    ensures Armed(After(e)) && LastRun(After(e)) == LastRun(e.v.status)
  {
  }

  lemma ArmedIsKept(e: Event)
    requires Lawful(e.v, e.o, e.x) && Armed(e.v.status) && !Rearms(e)
    ensures Armed(After(e)) && LastRun(After(e)) == LastRun(e.v.status)
  {
    if e.x.Patch? {
      PatchObeys(e);
      ArmedByRule(e);
    } else {
      OnlyPatches(e);
    }
  }

  /** Between two recorded starts lies a landed pass that saw no rehearsal requested and no rehearsal
      pod left. */
  lemma StartsAreSeparated(w0: World, ls: seq<Label>, i: nat, j: nat)
    requires Init(w0) && i <= j <= |Events(w0, ls)|
    requires Armed(Before(Events(w0, ls), w0.status, i))
    requires LastRun(Before(Events(w0, ls), w0.status, j)) != LastRun(Before(Events(w0, ls), w0.status, i))
    ensures exists k :: i <= k < j && Rearms(Events(w0, ls)[k])
  {
    var es := Events(w0, ls);
    if forall k :: i <= k < j ==> !Rearms(es[k]) {
      EventsChain(w0, ls);
      forall k | i <= k < j && Armed(es[k].v.status)
        ensures Armed(After(es[k])) && LastRun(After(es[k])) == LastRun(es[k].v.status)
      {
        EveryWriteIsLawful(w0, ls, k);
        ArmedIsKept(es[k]);
      }
      KeptAlong(Armed, LastRun, es, w0.status, i, j);
      assert false;
    }
  }

  lemma CheckedByRule(e: Event)
    requires e.x.CreateJob? && CreateRule(e.v, e.o, e.x.key, e.x.job) && RehearsalPod(e.v)
    ensures !e.x.key.Gate? && (e.x.key.Worker? ==> e.x.key.n == 1)
    ensures e.x.key.Verify? ==> True(e.v.status, CutoverCompleted)
  {
  }

  /** Beside an unended rehearsal pod no gate probe, no retry and, until the drain is proven, no drain
      verify is created. */
  lemma NothingBesideARehearsal(w0: World, ls: seq<Label>, i: nat)
    requires Init(w0) && i < |Events(w0, ls)| && Events(w0, ls)[i].x.CreateJob? && RehearsalPod(Events(w0, ls)[i].v)
    ensures var e := Events(w0, ls)[i];
            && !e.x.key.Gate? && (e.x.key.Worker? ==> e.x.key.n == 1)
            && (e.x.key.Verify? ==> True(e.v.status, CutoverCompleted))
  {
    EveryWriteIsLawful(w0, ls, i);
    CreateObeys(Events(w0, ls)[i]);
    CheckedByRule(Events(w0, ls)[i]);
  }

  // ------------------------------------------------------------------ blocked commits

  /** CommitsBlocked turns True only on a confirmed wait. Once True it changes only on a sample that
      read the waits and found them under 30 s, or when the worker exited 0. */
  lemma BlockedNeedsProof(w0: World, ls: seq<Label>, i: nat)
    requires Init(w0) && i < |Events(w0, ls)|
    requires True(Events(w0, ls)[i].v.status, CommitsBlocked) != True(After(Events(w0, ls)[i]), CommitsBlocked)
    ensures var e := Events(w0, ls)[i];
            var got := PassSample(e.v.spec, e.v.status, e.o);
            if True(After(e), CommitsBlocked) then WorkerIs(e.v, Running) && got.confirmed && WaitOf(got.sample).Some?
            else
              || WorkerIs(e.v, Succeeded)
              || (WorkerIs(e.v, Running) && WaitOf(got.sample).Some? &&
                  !(WaitOf(got.sample).value.waiting > 0 && WaitOf(got.sample).value.oldestSeconds >= 30))
  {
    var e := Events(w0, ls)[i];
    EveryWriteIsLawful(w0, ls, i);
    if e.x.Patch? {
      PatchObeys(e);
      assert BlockedRule(e.v, e.o, e.x.status);
    } else {
      OnlyPatches(e);
    }
  }
}
