/** Whole runs: passes that may crash after any landed write, and everything the outside world can
    do between two of them. */
module Runs {
  import opened Text
  import opened Conditions
  import opened Cluster
  import opened Passes

  datatype Env =
    | Tick(seconds: nat)
    | PodStarts(key: JobKey)
    | PodEnds(uid: nat)
    | JobEnds(key: JobKey, ok: bool, log: string)
    | JobDeleting(key: JobKey)
    | JobRemoved(key: JobKey)
    | EditSpec(spec: Spec)
    | DeleteMigration

  /** A step of a run: a pass of which the first landed writes land, or a step of the world. */
  datatype Label = PassL(o: Obs, landed: nat) | EnvL(e: Env)

  /** The Job controller can still start a pod of it: worker, probe and rehearsal Jobs have
      backoffLimit 0, so one pod each. */
  predicate Startable(j: Job) {
    j.state.Running? && !j.deleting && j.pod.None?
  }

  function StartPod(w: World, k: JobKey): World
    requires k in w.jobs
  {
    w.(jobs := w.jobs[k := w.jobs[k].(pod := Some(w.nextPod))],
       pods := w.pods[w.nextPod := k], nextPod := w.nextPod + 1)
  }

  function EndJob(w: World, k: JobKey, ok: bool, log: string): World
    requires k in w.jobs
  {
    w.(jobs := w.jobs[k := w.jobs[k].(
                 state := if ok then Succeeded else JobState.Failed, finishedAt := w.clock, log := log)],
       hist := w.hist.(exited := w.hist.exited || (ok && k.Worker?)))
  }

  /** The outside world. A finished Job stays finished, an ended pod stays ended, and only the
      immutable fields of the spec resist an edit; a Job can be removed at any time. */
  function EnvStep(w: World, e: Env): World {
    match e
    case Tick(d) => w.(clock := w.clock + d)
    case PodStarts(k) =>
      if (k.Worker? || k.Rehearsal?) && k in w.jobs && Startable(w.jobs[k]) then StartPod(w, k) else w
    case PodEnds(u) => w.(pods := w.pods - {u})
    case JobEnds(k, ok, log) => if k in w.jobs && w.jobs[k].state.Running? then EndJob(w, k, ok, log) else w
    case JobDeleting(k) => Apply(w, DeleteJob(k, Foreground))
    case JobRemoved(k) => w.(jobs := w.jobs - {k})
    case EditSpec(s) =>
      if SameImmutable(w.spec, s)
      then w.(spec := s, hist := w.hist.(limitKept := w.hist.limitKept && w.spec.backoffLimit <= s.backoffLimit))
      else w
    case DeleteMigration => w.(deleting := true, gone := w.gone || !w.finalizer)
  }

  function Prefix(ws: seq<Write>, n: nat): seq<Write> {
    if n < |ws| then ws[..n] else ws
  }

  /** A pass with an impossible reading is no step. */
  ghost function Next(w: World, l: Label): World {
    match l
    case PassL(o, n) => if ValidObs(w, o) then ApplyAll(w, Prefix(Pass(w, o), n)) else w
    case EnvL(e) => EnvStep(w, e)
  }

  /** The world after a run. */
  ghost function Run(w: World, ls: seq<Label>): World
    decreases |ls|
  {
    if ls == [] then w else Next(Run(w, ls[..|ls| - 1]), ls[|ls| - 1])
  }

  /** A Migration just created: nothing has happened. */
  ghost predicate Init(w: World) {
    && w.status == EMPTY_STATUS && w.jobs == map[] && w.pods == map[]
    && !w.finalizer && !w.deleting && !w.gone
    && w.hist == History(false, true)
  }
}
