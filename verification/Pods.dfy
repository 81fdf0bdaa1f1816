/** Pods and the Jobs they belong to: one pod per attempt and per rehearsal run, exactly as long as
    every unended pod still has its Job. */
module Pods {
  import opened Text
  import opened Conditions
  import opened Cluster
  import opened Passes
  import opened Runs
  import opened Invariant
  import opened Rules
  import opened PassRules
  import opened ReconcileRules
  import opened Histories
  import opened Starts

  /** The Job that started the pod is still there. A Job created again under the same name is another. */
  predicate Owned(w: World, u: nat) {
    u in w.pods && w.pods[u] in w.jobs && w.jobs[w.pods[u]].pod == Some(u)
  }

  // ------------------------------------------------------------------ what a pod's Job is worth

  /** No two attempts ever have unended pods at the same time, and of an attempt's unended pods at most
      one has its Job: a second one has lost it. */
  lemma OneAttemptAtATime(w0: World, ls: seq<Label>, u: nat, v: nat)
    requires Init(w0)
    requires var w := Run(w0, ls); u in w.pods && v in w.pods && w.pods[u].Worker? && w.pods[v].Worker?
    ensures var w := Run(w0, ls);
            && w.pods[u] == w.pods[v]
            && (Owned(w, u) && Owned(w, v) ==> u == v)
  {
    InvAlways(w0, ls);
  }

  /** Every unended rehearsal pod is of the open run, and at most one of them has its Job. */
  lemma OneRehearsalPod(w0: World, ls: seq<Label>, u: nat, v: nat)
    requires Init(w0)
    requires var w := Run(w0, ls); u in w.pods && v in w.pods && w.pods[u].Rehearsal? && w.pods[v].Rehearsal?
    ensures var w := Run(w0, ls);
            && w.pods[u] == w.pods[v] == JobKey.Rehearsal(OpenRun(w.status))
            && (Owned(w, u) && Owned(w, v) ==> u == v)
  {
    InvAlways(w0, ls);
  }

  // ------------------------------------------------------------------ how a pod loses its Job

  /** The Jobs of one kind: workers or rehearsals. */
  datatype Kind = OfWorkers | OfRehearsals

  predicate Is(kind: Kind, k: JobKey) {
    match kind case OfWorkers => k.Worker? case OfRehearsals => k.Rehearsal?
  }

  ghost predicate AllOwned(w: World, kind: Kind) {
    forall u :: u in w.pods && Is(kind, w.pods[u]) ==> Owned(w, u)
  }

  /** The step takes a Job of the kind away while a pod of it is unended. */
  predicate Orphans(w: World, l: Label, kind: Kind) {
    l.EnvL? && l.e.JobRemoved? && Is(kind, l.e.key) && HasPod(w, l.e.key)
  }

  lemma StartKeepsOwned(w: World, k: JobKey, kind: Kind)
    requires AllOwned(w, kind) && PodIds(w) && k in w.jobs && Startable(w.jobs[k])
    ensures AllOwned(StartPod(w, k), kind)
  {
    var v := StartPod(w, k);
    forall u | u in v.pods && Is(kind, v.pods[u]) ensures Owned(v, u) {
      if u != w.nextPod {
        assert Owned(w, u);
      }
    }
  }

  lemma RemovalKeepsOwned(w: World, k: JobKey, kind: Kind)
    requires AllOwned(w, kind) && !Orphans(w, EnvL(JobRemoved(k)), kind)
    ensures AllOwned(EnvStep(w, JobRemoved(k)), kind)
  {
    var v := EnvStep(w, JobRemoved(k));
    forall u | u in v.pods && Is(kind, v.pods[u]) ensures Owned(v, u) {
      assert Owned(w, u);
      if v.pods[u] == k {
        assert HasPod(w, k);
      }
    }
  }

  /** No other step of the outside world does. */
  lemma EnvKeepsOwned(w: World, e: Env, kind: Kind)
    requires AllOwned(w, kind) && PodIds(w) && !Orphans(w, EnvL(e), kind)
    ensures AllOwned(EnvStep(w, e), kind)
  {
    match e
    case PodStarts(k) =>
      if k in w.jobs && Startable(w.jobs[k]) {
        StartKeepsOwned(w, k, kind);
      }
    case JobRemoved(k) => RemovalKeepsOwned(w, k, kind);
    case _ =>
      var v := EnvStep(w, e);
      forall u | u in v.pods && Is(kind, v.pods[u]) ensures Owned(v, u) {
        assert Owned(w, u);
      }
  }

  /** What the bookkeeping of pods needs of a write: worker and rehearsal Jobs are deleted in the
      foreground only and created startable; an attempt is recorded, and a run armed, with its Job there. */
  ghost predicate Moves(v: World, x: Write) {
    var m, n := v.status, Apply(v, x).status;
    && (x.DeleteJob? && (x.key.Worker? || x.key.Rehearsal?) ==> x.policy.Foreground?)
    && (x.CreateJob? && (x.key.Worker? || x.key.Rehearsal?) ==> Startable(x.job))
    && (n.attempts == m.attempts || (n.attempts == m.attempts + 1 && Worker(n.attempts) in v.jobs))
    && (LastRun(n) == LastRun(m) || (LastRun(n) == LastRun(m) + 1 && JobKey.Rehearsal(LastRun(n)) in v.jobs))
  }

  lemma DeleteMoves(v: World, o: Obs, x: Write)
    requires Lawful(v, o, x) && x.DeleteJob?
    ensures Moves(v, x)
  {
    assert DeleteRule(v, x.key, x.policy);
  }

  lemma PatchMoves(v: World, o: Obs, x: Write)
    requires x.Patch? && AttemptRule(v, x.status) && RunRule(v, x.status)
    ensures Moves(v, x)
  {
  }

  lemma LawfulMoves(v: World, o: Obs, x: Write)
    requires Lawful(v, o, x)
    ensures Moves(v, x)
  {
    if x.Patch? {
      PatchObeys(Event(v, o, x));
      PatchMoves(v, o, x);
    } else if x.CreateJob? {
      CreateObeys(Event(v, o, x));
    } else if x.DeleteJob? {
      DeleteMoves(v, o, x);
    }
  }

  lemma MovesCovered(o: Obs)
    ensures Covers(Moves, o)
  {
    forall v, x | Lawful(v, o, x) ensures Moves(v, x) {
      LawfulMoves(v, o, x);
    }
  }

  /** A write keeps a worker or rehearsal Job that exists, and the pod it names. */
  lemma MovesKeepJob(v: World, x: Write, k: JobKey)
    requires Moves(v, x) && (k.Worker? || k.Rehearsal?) && k in v.jobs
    ensures k in Apply(v, x).jobs && Apply(v, x).jobs[k].pod == v.jobs[k].pod
  {
  }

  lemma MovesKeepOwned(v: World, x: Write, kind: Kind)
    requires Moves(v, x) && AllOwned(v, kind)
    ensures AllOwned(Apply(v, x), kind)
  {
    forall u | u in Apply(v, x).pods && Is(kind, Apply(v, x).pods[u]) ensures Owned(Apply(v, x), u) {
      assert Owned(v, u);
      MovesKeepJob(v, x, v.pods[u]);
    }
  }

  lemma {:induction false} WritesKeepOwned(w: World, ws: seq<Write>, n: nat, kind: Kind)
    requires Every(Moves, w, ws) && AllOwned(w, kind)
    ensures AllOwned(ApplyAll(w, Prefix(ws, n)), kind)
    decreases |ws|
  {
    var ps := Prefix(ws, n);
    if ps != [] {
      MovesKeepOwned(w, ws[0], kind);
      WritesKeepOwned(Apply(w, ws[0]), ws[1..], n - 1, kind);
      assert ps[1..] == Prefix(ws[1..], n - 1);
    }
  }

  /** In a run in which no Job of the kind goes away with a pod of it unended, every unended pod of
      the kind has its Job: passes and crashes never take it. */
  lemma {:induction false} OwnedAlways(w0: World, ls: seq<Label>, kind: Kind)
    requires Init(w0) && forall i :: 0 <= i < |ls| ==> !Orphans(Run(w0, ls[..i]), ls[i], kind)
    ensures AllOwned(Run(w0, ls), kind)
    decreases |ls|
  {
    if ls != [] {
      var front, l := ls[..|ls| - 1], ls[|ls| - 1];
      var w := Run(w0, front);
      forall i | 0 <= i < |front| ensures !Orphans(Run(w0, front[..i]), front[i], kind) {
        assert front[..i] == ls[..i];
      }
      OwnedAlways(w0, front, kind);
      InvAlways(w0, front);
      match l
      case PassL(o, n) =>
        if ValidObs(w, o) {
          MovesCovered(o);
          PassIsLawful(Moves, w, o);
          WritesKeepOwned(w, Pass(w, o), n, kind);
        }
      case EnvL(e) =>
        assert !Orphans(Run(w0, ls[..|ls| - 1]), ls[|ls| - 1], kind);
        EnvKeepsOwned(w, e, kind);
    }
  }

  /** One pod per attempt and one attempt at a time, over every run in which no worker Job goes away
      with a pod of it unended. */
  lemma OnePodPerAttempt(w0: World, ls: seq<Label>, u: nat, v: nat)
    requires Init(w0) && forall i :: 0 <= i < |ls| ==> !Orphans(Run(w0, ls[..i]), ls[i], OfWorkers)
    requires var w := Run(w0, ls); u in w.pods && v in w.pods && w.pods[u].Worker? && w.pods[v].Worker?
    ensures u == v
  {
    OwnedAlways(w0, ls, OfWorkers);
    OneAttemptAtATime(w0, ls, u, v);
  }

  /** The same for rehearsals: one pod of one run, start writes lost in a crash included. */
  lemma OnePodPerRun(w0: World, ls: seq<Label>, u: nat, v: nat)
    requires Init(w0) && forall i :: 0 <= i < |ls| ==> !Orphans(Run(w0, ls[..i]), ls[i], OfRehearsals)
    requires var w := Run(w0, ls); u in w.pods && v in w.pods && w.pods[u].Rehearsal? && w.pods[v].Rehearsal?
    ensures u == v
  {
    OwnedAlways(w0, ls, OfRehearsals);
    OneRehearsalPod(w0, ls, u, v);
  }

  // ------------------------------------------------------------------ when a pass makes a second Job

  /** Some of the writes creates the Job, and it may start a pod. */
  ghost predicate Creates(w: World, ws: seq<Write>, k: JobKey)
    decreases |ws|
  {
    ws != [] &&
    ((ws[0].CreateJob? && ws[0].key == k && k !in w.jobs && Startable(ws[0].job)) ||
     Creates(Apply(w, ws[0]), ws[1..], k))
  }

  /** Writes create a worker or rehearsal Job exactly when it is missing before and there after. */
  lemma {:induction false} CreatesIff(w: World, ws: seq<Write>, k: JobKey)
    requires Every(Moves, w, ws) && (k.Worker? || k.Rehearsal?)
    ensures Creates(w, ws, k) <==> k !in w.jobs && k in ApplyAll(w, ws).jobs
    ensures k in w.jobs ==> k in ApplyAll(w, ws).jobs
    decreases |ws|
  {
    if ws != [] {
      CreatesIff(Apply(w, ws[0]), ws[1..], k);
      if k in w.jobs {
        MovesKeepJob(w, ws[0], k);
      }
    }
  }

  /** A pass of a run and the world it starts on. */
  lemma PassOf(w0: World, ls: seq<Label>, o: Obs) returns (w: World, ws: seq<Write>)
    requires Init(w0) && ValidObs(Run(w0, ls), o)
    ensures w == Run(w0, ls) && ws == Pass(w, o) && Every(Moves, w, ws) && Rehearsals(w)
  {
    InvAlways(w0, ls);
    w := Run(w0, ls);
    MovesCovered(o);
    PassIsLawful(Moves, w, o);
    ws := Pass(w, o);
  }

  /** The pass lands the create of k as its i-th write, if k is missing, and never else: a pass that
      crashes before has not created the Job, and one that crashes anywhere behind has. */
  ghost predicate CreatesAt(w: World, ws: seq<Write>, k: JobKey, i: nat) {
    && (k !in w.jobs ==> i < |ws|)
    && (forall n: nat :: Creates(w, Prefix(ws, n), k) <==> k !in w.jobs && n > i)
  }

  /** The first create of a Job decides. */
  lemma {:induction false} FirstCreate(w: World, ws: seq<Write>, k: JobKey) returns (i: nat)
    requires Every(Moves, w, ws) && (k.Worker? || k.Rehearsal?) && (k !in w.jobs ==> Makes(ws, k))
    ensures CreatesAt(w, ws, k, i)
    decreases |ws|
  {
    i := 0;
    if k in w.jobs {
      forall n: nat ensures !Creates(w, Prefix(ws, n), k) {
        PrefixMoves(w, ws, n);
        CreatesIff(w, Prefix(ws, n), k);
      }
    } else if !(ws[0].CreateJob? && ws[0].key == k) {
      LaterMakes(ws, k);
      MissingStays(w, ws[0], k);
      var j := FirstCreate(Apply(w, ws[0]), ws[1..], k);
      i := j + 1;
      forall n: nat ensures Creates(w, Prefix(ws, n), k) <==> n > i {
        if n > 0 {
          assert Prefix(ws, n)[0] == ws[0] && Prefix(ws, n)[1..] == Prefix(ws[1..], n - 1);
        }
      }
    } else {
      forall n: nat ensures Creates(w, Prefix(ws, n), k) <==> n > 0 {
        assert n > 0 ==> Prefix(ws, n)[0] == ws[0];
      }
    }
  }

  lemma LaterMakes(ws: seq<Write>, k: JobKey)
    requires Makes(ws, k) && !(ws[0].CreateJob? && ws[0].key == k)
    ensures Makes(ws[1..], k)
  {
    var i :| 0 <= i < |ws| && ws[i].CreateJob? && ws[i].key == k;
    assert ws[1..][i - 1] == ws[i];
  }

  lemma MissingStays(w: World, x: Write, k: JobKey)
    requires k !in w.jobs && !(x.CreateJob? && x.key == k)
    ensures k !in Apply(w, x).jobs
  {
  }

  lemma {:induction false} PrefixMoves(w: World, ws: seq<Write>, n: nat)
    requires Every(Moves, w, ws)
    ensures Every(Moves, w, Prefix(ws, n))
    decreases |ws|
  {
    var ps := Prefix(ws, n);
    if ps != [] {
      PrefixMoves(Apply(w, ws[0]), ws[1..], n - 1);
      assert ps[1..] == Prefix(ws[1..], n - 1);
    }
  }

  /** A pass with budget left and its gate cleared creates a Job of the next attempt if and only if none
      of its name exists and it gets to the create, the record behind it landed or lost. Unended pods
      of the attempt do not count: the gate asks for those of the attempt before only. */
  lemma SecondWorkerIff(w0: World, ls: seq<Label>, o: Obs) returns (w: World, ws: seq<Write>, i: nat)
    requires Init(w0) && ValidObs(Run(w0, ls), o) && MayStart(Run(w0, ls), o)
    ensures w == Run(w0, ls) && ws == Pass(w, o)
    ensures CreatesAt(w, ws, Worker(w.status.attempts + 1), i)
    ensures forall n: nat :: ApplyAll(w, Prefix(ws, n)).pods == w.pods
  {
    w, ws := PassOf(w0, ls, o);
    if Worker(w.status.attempts + 1) !in w.jobs {
      var same := StartsMake(w, o);
    }
    i := FirstCreate(w, ws, Worker(w.status.attempts + 1));
    PodsStay(w, ws);
  }

  lemma PodsStay(w: World, ws: seq<Write>)
    ensures forall n: nat :: ApplyAll(w, Prefix(ws, n)).pods == w.pods
  {
    forall n: nat ensures ApplyAll(w, Prefix(ws, n)).pods == w.pods {
      WritesKeepWorld(w, Prefix(ws, n));
    }
  }

  /** A pass that may start a rehearsal creates a Job of the open run if and only if none of its name
      exists and it gets to the create. Every unended rehearsal pod is of that very run, and none is
      asked for. */
  lemma SecondRehearsalIff(w0: World, ls: seq<Label>, o: Obs) returns (w: World, ws: seq<Write>, i: nat)
    requires Init(w0) && ValidObs(Run(w0, ls), o) && MayRehearse(Run(w0, ls), o)
    ensures w == Run(w0, ls) && ws == Pass(w, o)
    ensures CreatesAt(w, ws, JobKey.Rehearsal(OpenRun(w.status)), i)
    ensures forall u :: u in w.pods && w.pods[u].Rehearsal? ==> w.pods[u] == JobKey.Rehearsal(OpenRun(w.status))
    ensures forall n: nat :: ApplyAll(w, Prefix(ws, n)).pods == w.pods
  {
    w, ws := PassOf(w0, ls, o);
    if JobKey.Rehearsal(OpenRun(w.status)) !in w.jobs {
      var same := RehearsalMakes(w, o);
    }
    i := FirstCreate(w, ws, JobKey.Rehearsal(OpenRun(w.status)));
    PodsStay(w, ws);
  }
}
