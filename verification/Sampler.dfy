/** The sampler: one lock, one goroutine a run, latches and cancellation, as interleaved steps. */
module Samplers {
  import opened Text
  import opened Samples

  type Key = nat

  datatype Hint = Hint(copyStarted: bool, dataAcross: bool)

  /** A samplerRun; runs live in an arena and are named by number. */
  datatype Run = Run(
    key: Key, job: string, allDatabases: bool, cancelled: bool, hint: Hint, last: Sampled, copySeen: bool, over: bool)

  /** The context the manager gave Start. */
  datatype Context = NoContext | Live | Done

  /** Where a run's goroutine is: in a sample it began at this time, in its timer, or gone. */
  datatype Loop = Sampling(at: int) | Waiting | Ended

  /** A SampleNow of a pass in flight. */
  datatype Pending = Pending(job: string, at: int)

  datatype Event =
    | Stored(id: nat, s: Sampled)
    | Handed(id: nat, s: Sampled)
    | Gauged(key: Key)
    | Observed(key: Key)
    | Stopped(key: Key)

  datatype State = State(
    context: Context, runs: map<Key, nat>, objs: map<nat, Run>, loops: map<nat, Loop>, pending: map<Key, Pending>,
    next: nat, clock: int, trace: seq<Event>)

  const START := State(NoContext, map[], map[], map[], map[], 0, 1, [])

  datatype Step =
    | StartS
    | CancelS
    | EndS
    | ObserveS(key: Key, job: string, allDatabases: bool, hint: Hint)
    | NowBegins(key: Key, job: string)
    | NowEnds(key: Key, sample: Option<Sample>)
    | StopS(key: Key)
    | LoopLands(id: nat, sample: Option<Sample>)
    | LoopWakes(id: nat)
    | Tick(d: nat)

  // ------------------------------------------------------------------ the steps

  function SampleAt(s: Option<Sample>, at: int): Sampled {
    Sampled(s, at, s.Some? && s.value.copyStarted, false)
  }

  /** keepLocked: the run and the sample after the lock, and whether the sample was stored. */
  function Keep(run: Run, got: Sampled): (Run, Sampled, bool) {
    var seen := run.copySeen || got.copySeen;
    if got.at < run.last.at then (run.(copySeen := seen), got.(copySeen := seen), false)
    else
      var over := SyncRepOver(WaitOf(got.sample));
      var kept := got.(copySeen := seen, confirmed := over && run.over);
      (run.(copySeen := seen, over := over, last := kept), kept, true)
  }

  /** The lock section that keeps a sample: only a stored one reaches the gauges. */
  function KeepIn(s: State, id: nat, got: Sampled): State
    requires id in s.objs
  {
    var (run, kept, stored) := Keep(s.objs[id], got);
    s.(objs := s.objs[id := run],
       trace := s.trace + (if stored then [Stored(id, kept), Gauged(run.key)] else []))
  }

  function Unregister(s: State, key: Key): State {
    if key in s.runs && s.runs[key] in s.objs
    then s.(runs := s.runs - {key}, objs := s.objs[s.runs[key] := s.objs[s.runs[key]].(cancelled := true)])
    else s
  }

  function NewRun(key: Key, job: string, all: bool): Run {
    Run(key, job, all, false, Hint(false, false), NO_SAMPLE, false, false)
  }

  /** A run is registered for the key, and its goroutine begins with a sample. */
  function Register(s: State, key: Key, job: string, all: bool): State {
    s.(runs := s.runs[key := s.next], objs := s.objs[s.next := NewRun(key, job, all)],
       loops := s.loops[s.next := Sampling(s.clock)], next := s.next + 1)
  }

  predicate Serves(s: State, key: Key, job: string, all: bool) {
    key in s.runs && s.runs[key] in s.objs && s.objs[s.runs[key]].job == job && s.objs[s.runs[key]].allDatabases == all
  }

  /** What Observe hands the pass: the latest sample, with the run's own copy latch. */
  function LatestOf(run: Run): Sampled { run.last.(copySeen := run.copySeen) }

  function ObserveIn(s: State, key: Key, job: string, all: bool, hint: Hint): State {
    var s1 := if Serves(s, key, job, all) then s else Register(Unregister(s, key), key, job, all);
    if key in s1.runs && s1.runs[key] in s1.objs then
      var id := s1.runs[key];
      s1.(objs := s1.objs[id := s1.objs[id].(hint := hint)],
          trace := s1.trace + [Observed(key), Handed(id, LatestOf(s1.objs[id]))])
    else s1
  }

  /** The run's context is done: its own cancel, or Start's context. */
  predicate RunDone(s: State, id: nat)
    requires id in s.objs
  {
    s.objs[id].cancelled || !s.context.Live?
  }

  function LandIn(s: State, id: nat, sample: Option<Sample>): State
    requires id in s.objs && id in s.loops && s.loops[id].Sampling?
  {
    if RunDone(s, id) then s.(loops := s.loops[id := Ended])
    else KeepIn(s, id, SampleAt(sample, s.loops[id].at)).(loops := s.loops[id := Waiting])
  }

  function NowIn(s: State, key: Key, sample: Option<Sample>): State
    requires key in s.pending
  {
    var p := s.pending[key];
    var got := SampleAt(sample, p.at);
    var s1 := s.(pending := s.pending - {key});
    if key in s.runs && s.runs[key] in s.objs && s.objs[s.runs[key]].job == p.job then
      var id := s.runs[key];
      var s2 := KeepIn(s1, id, got);
      s2.(trace := s2.trace + [Handed(id, Keep(s.objs[id], got).1)])
    else s1
  }

  /** One step. Passes of one key are sequential: none observes while its SampleNow is in flight. */
  function Do(s: State, x: Step): State {
    match x
    case StartS => if s.context.NoContext? then s.(context := Live) else s
    case CancelS => if s.context.Live? then s.(context := Done) else s
    case EndS =>
      if s.context.Done?
      then s.(context := NoContext, runs := map[], objs := map id | id in s.objs :: s.objs[id].(cancelled := true))
      else s
    case ObserveS(key, job, all, hint) =>
      if s.context.NoContext? || key in s.pending then s else ObserveIn(s, key, job, all, hint)
    case NowBegins(key, job) => if key in s.pending then s else s.(pending := s.pending[key := Pending(job, s.clock)])
    case NowEnds(key, sample) => if key in s.pending then NowIn(s, key, sample) else s
    case StopS(key) =>
      var s1 := Unregister(s, key);
      s1.(trace := s1.trace + [Stopped(key)])
    case LoopLands(id, sample) =>
      if id in s.objs && id in s.loops && s.loops[id].Sampling? then LandIn(s, id, sample) else s
    case LoopWakes(id) =>
      if id in s.objs && id in s.loops && s.loops[id].Waiting?
      then s.(loops := s.loops[id := if RunDone(s, id) then Ended else Sampling(s.clock)])
      else s
    case Tick(d) => s.(clock := s.clock + d)
  }

  function DoAll(xs: seq<Step>): State {
    if xs == [] then START else Do(DoAll(xs[..|xs| - 1]), xs[|xs| - 1])
  }

  // ------------------------------------------------------------------ registration

  /** A run is uncancelled exactly while it is the one registered for its key. */
  ghost predicate Registered(s: State) {
    && (forall k :: k in s.runs ==> s.runs[k] in s.objs && s.objs[s.runs[k]].key == k && !s.objs[s.runs[k]].cancelled)
    && (forall id :: id in s.objs && !s.objs[id].cancelled ==> s.objs[id].key in s.runs && s.runs[s.objs[id].key] == id)
    && (forall id :: id in s.objs ==> id < s.next)
    && (forall id :: id in s.loops ==> id in s.objs)
  }

  lemma UnregisterKeeps(s: State, key: Key)
    requires Registered(s)
    ensures Registered(Unregister(s, key)) && key !in Unregister(s, key).runs
  {
  }

  lemma RegisterKeeps(s: State, key: Key, job: string, all: bool)
    requires Registered(s) && key !in s.runs
    ensures Registered(Register(s, key, job, all)) && key in Register(s, key, job, all).runs
  {
  }

  lemma ObserveKeeps(s: State, key: Key, job: string, all: bool, hint: Hint)
    requires Registered(s)
    ensures Registered(ObserveIn(s, key, job, all, hint))
  {
    if !Serves(s, key, job, all) {
      UnregisterKeeps(s, key);
      RegisterKeeps(Unregister(s, key), key, job, all);
    }
  }

  lemma KeepInKeeps(s: State, id: nat, got: Sampled)
    requires Registered(s) && id in s.objs
    ensures Registered(KeepIn(s, id, got))
  {
  }

  lemma StepKeepsRegistered(s: State, x: Step)
    requires Registered(s)
    ensures Registered(Do(s, x))
  {
    match x {
      case ObserveS(key, job, all, hint) => ObserveKeeps(s, key, job, all, hint);
      case NowEnds(key, sample) =>
        if key in s.pending && key in s.runs {
          KeepInKeeps(s.(pending := s.pending - {key}), s.runs[key], SampleAt(sample, s.pending[key].at));
        }
      case StopS(key) => UnregisterKeeps(s, key);
      case LoopLands(id, sample) =>
        if id in s.objs && id in s.loops && s.loops[id].Sampling? {
          KeepInKeeps(s, id, SampleAt(sample, s.loops[id].at));
        }
      case _ =>
    }
  }

  lemma {:induction false} AlwaysRegistered(xs: seq<Step>)
    ensures Registered(DoAll(xs))
  {
    if xs != [] {
      AlwaysRegistered(xs[..|xs| - 1]);
      StepKeepsRegistered(DoAll(xs[..|xs| - 1]), xs[|xs| - 1]);
    }
  }

  /** Under every interleaving a key has at most one loop whose run is not cancelled, and that run is
      the registered one. */
  lemma OneLoopPerKey(xs: seq<Step>, i: nat, j: nat)
    requires var s := DoAll(xs);
             i in s.objs && j in s.objs && !s.objs[i].cancelled && !s.objs[j].cancelled &&
             s.objs[i].key == s.objs[j].key
    ensures i == j && DoAll(xs).objs[i].key in DoAll(xs).runs && DoAll(xs).runs[DoAll(xs).objs[i].key] == i
  {
    AlwaysRegistered(xs);
  }

  // ------------------------------------------------------------------ what the trace may hold

  /** The last stop or observation of the key is an observation. */
  predicate Active(t: seq<Event>, key: Key) {
    t != [] && (t[|t| - 1] == Observed(key) || (t[|t| - 1] != Stopped(key) && Active(t[..|t| - 1], key)))
  }

  /** The sample the run stored last. */
  function LastStored(t: seq<Event>, id: nat): Option<Sampled> {
    if t == [] then None
    else if t[|t| - 1].Stored? && t[|t| - 1].id == id then Some(t[|t| - 1].s)
    else LastStored(t[..|t| - 1], id)
  }

  predicate OverLast(t: seq<Event>, id: nat) {
    LastStored(t, id).Some? && SyncRepOver(WaitOf(LastStored(t, id).value.sample))
  }

  /** b may be handed after a: it started no earlier, and the copy latch stays. */
  predicate NotBefore(a: Sampled, b: Sampled) { a.at <= b.at && (a.copySeen ==> b.copySeen) }

  /** Every earlier sample handed out of the run may precede b. */
  ghost predicate HandsOn(t: seq<Event>, id: nat, b: Sampled) {
    forall i :: 0 <= i < |t| && t[i].Handed? && t[i].id == id ==> NotBefore(t[i].s, b)
  }

  ghost predicate EventOk(t: seq<Event>, e: Event) {
    match e
    case Gauged(key) => Active(t, key)
    case Stored(id, s) => s.confirmed <==> SyncRepOver(WaitOf(s.sample)) && OverLast(t, id)
    case Handed(id, s) =>
      HandsOn(t, id, s) &&
      (s.confirmed ==>
         LastStored(t, id).Some? && LastStored(t, id).value.confirmed && LastStored(t, id).value.sample == s.sample)
    case _ => true
  }

  ghost predicate TraceOk(t: seq<Event>) {
    forall j :: 0 <= j < |t| ==> EventOk(t[..j], t[j])
  }

  lemma AppendOk(t: seq<Event>, e: Event)
    requires TraceOk(t) && EventOk(t, e)
    ensures TraceOk(t + [e])
  {
    var u := t + [e];
    forall j | 0 <= j < |u| ensures EventOk(u[..j], u[j]) {
      if j < |t| {
        assert u[..j] == t[..j];
      } else {
        assert u[..j] == t;
      }
    }
  }

  // ------------------------------------------------------------------ the state and its trace

  /** The run's latches are those of its trace. */
  ghost predicate RunTied(s: State, id: nat)
    requires id in s.objs
  {
    var run := s.objs[id];
    && run.over == OverLast(s.trace, id)
    && run.last == (if LastStored(s.trace, id).Some? then LastStored(s.trace, id).value else NO_SAMPLE)
    && (run.last.copySeen ==> run.copySeen) && run.last.at <= s.clock
  }

  /** What was handed out of a run is bounded by what it holds, and by a SampleNow in flight. */
  ghost predicate HandedTied(s: State, e: Event)
    requires e.Handed?
  {
    && e.id in s.objs && e.s.at <= s.objs[e.id].last.at && (e.s.copySeen ==> s.objs[e.id].copySeen)
    && (s.objs[e.id].key in s.pending ==> e.s.at <= s.pending[s.objs[e.id].key].at)
  }

  ghost predicate Ties(s: State) {
    && (forall k :: k in s.runs ==> Active(s.trace, k))
    && (forall id :: id in s.objs ==> RunTied(s, id))
    && (forall e :: e in s.trace && e.Handed? ==> HandedTied(s, e))
    && (forall e :: e in s.trace && e.Stored? ==> e.id in s.objs)
    && (forall id :: id in s.loops && s.loops[id].Sampling? ==> s.loops[id].at <= s.clock)
    && (forall k :: k in s.pending ==> s.pending[k].at <= s.clock)
    && s.clock >= 1
  }

  ghost predicate Sound(s: State) { Registered(s) && Ties(s) && TraceOk(s.trace) }

  lemma NotStored(t: seq<Event>, id: nat)
    requires forall e :: e in t && e.Stored? ==> e.id != id
    ensures LastStored(t, id) == None
  {
    if t != [] {
      assert t[|t| - 1] in t;
      assert forall e :: e in t[..|t| - 1] ==> e in t;
      NotStored(t[..|t| - 1], id);
    }
  }

  lemma Appended(t: seq<Event>, e: Event)
    ensures (t + [e])[..|t|] == t
    ensures forall key :: Active(t + [e], key) == (e == Observed(key) || (e != Stopped(key) && Active(t, key)))
    ensures forall id :: LastStored(t + [e], id) == (if e.Stored? && e.id == id then Some(e.s) else LastStored(t, id))
  {
    assert (t + [e])[..|t|] == t;
  }

  // ------------------------------------------------------------------ each step keeps it

  /** The trace after a stored sample. */
  lemma StoreTrace(t: seq<Event>, id: nat, kept: Sampled, key: Key)
    requires TraceOk(t) && Active(t, key)
    requires kept.confirmed <==> SyncRepOver(WaitOf(kept.sample)) && OverLast(t, id)
    ensures var u := t + [Stored(id, kept), Gauged(key)];
            && TraceOk(u)
            && (forall k :: Active(u, k) == Active(t, k))
            && (forall j :: LastStored(u, j) == (if j == id then Some(kept) else LastStored(t, j)))
  {
    var t1 := t + [Stored(id, kept)];
    Appended(t, Stored(id, kept));
    AppendOk(t, Stored(id, kept));
    Appended(t1, Gauged(key));
    AppendOk(t1, Gauged(key));
    assert t + [Stored(id, kept), Gauged(key)] == t1 + [Gauged(key)];
  }

  /** Keeping a sample of a registered run, at a time the clock has reached. */
  lemma KeepSound(s: State, id: nat, got: Sampled)
    requires Sound(s) && id in s.objs && !s.objs[id].cancelled && got.at <= s.clock && !got.confirmed
    ensures Sound(KeepIn(s, id, got))
  {
    var (run, kept, stored) := Keep(s.objs[id], got);
    var v := KeepIn(s, id, got);
    KeepInKeeps(s, id, got);
    assert RunTied(s, id);
    if stored {
      StoreTrace(s.trace, id, kept, run.key);
      forall j | j in v.objs ensures RunTied(v, j) {
        assert RunTied(s, j);
      }
    } else {
      assert v.trace == s.trace;
      forall j | j in v.objs ensures RunTied(v, j) {
        assert RunTied(s, j);
      }
    }
    KeepHanded(s, id, got);
  }

  lemma KeepHanded(s: State, id: nat, got: Sampled)
    requires Ties(s) && id in s.objs
    ensures var v := KeepIn(s, id, got);
            (forall e :: e in v.trace && e.Handed? ==> HandedTied(v, e)) &&
            (forall e :: e in v.trace && e.Stored? ==> e.id in v.objs)
  {
  }

  lemma UnregisterSound(s: State, key: Key)
    requires Sound(s)
    ensures Sound(Unregister(s, key))
  {
    var v := Unregister(s, key);
    UnregisterKeeps(s, key);
    forall j | j in v.objs ensures RunTied(v, j) {
      assert RunTied(s, j);
    }
  }

  /** An event that touches neither samples nor gauges. */
  lemma NoteSound(s: State, e: Event)
    requires (e.Observed? || e.Stopped?) && TraceOk(s.trace)
    requires forall id :: id in s.objs ==> RunTied(s, id)
    ensures TraceOk(s.trace + [e])
    ensures forall id :: id in s.objs ==> RunTied(s.(trace := s.trace + [e]), id)
  {
    Appended(s.trace, e);
    AppendOk(s.trace, e);
    forall id | id in s.objs ensures RunTied(s.(trace := s.trace + [e]), id) {
      assert RunTied(s, id);
    }
  }

  lemma StopSound(s: State, key: Key)
    requires Sound(s)
    ensures Sound(Do(s, StopS(key)))
  {
    var s1 := Unregister(s, key);
    UnregisterSound(s, key);
    UnregisterKeeps(s, key);
    NoteSound(s1, Stopped(key));
    Appended(s1.trace, Stopped(key));
  }

  /** A new run, already observed, is sound. */
  lemma RegisterSound(s: State, key: Key, job: string, all: bool)
    requires Sound(s) && key !in s.runs && key !in s.pending
    ensures var v := Register(s, key, job, all);
            Sound(v.(trace := v.trace + [Observed(key)]))
  {
    var v := Register(s, key, job, all);
    var e := Observed(key);
    Appended(s.trace, e);
    AppendOk(s.trace, e);
    NotStored(s.trace, s.next);
    var u := v.(trace := v.trace + [e]);
    RegisterKeeps(s, key, job, all);
    forall id | id in u.objs ensures RunTied(u, id) {
      assert id != s.next ==> RunTied(s, id);
    }
    forall x | x in u.trace && x.Handed? ensures HandedTied(u, x) {
      assert HandedTied(s, x);
    }
  }

  lemma AgainSound(s: State, key: Key)
    requires Sound(s)
    ensures Sound(s.(trace := s.trace + [Observed(key)]))
  {
    NoteSound(s, Observed(key));
    Appended(s.trace, Observed(key));
  }

  lemma HandOut(s: State, e: Event)
    requires Sound(s) && e.Handed? && EventOk(s.trace, e) && HandedTied(s, e)
    ensures Sound(s.(trace := s.trace + [e]))
  {
    var v := s.(trace := s.trace + [e]);
    Appended(s.trace, e);
    AppendOk(s.trace, e);
    forall j | j in v.objs ensures RunTied(v, j) {
      assert RunTied(s, j);
    }
  }

  lemma HintSound(s: State, id: nat, hint: Hint)
    requires Sound(s) && id in s.objs
    ensures Sound(s.(objs := s.objs[id := s.objs[id].(hint := hint)]))
  {
    var v := s.(objs := s.objs[id := s.objs[id].(hint := hint)]);
    forall j | j in v.objs ensures RunTied(v, j) {
      assert RunTied(s, j);
    }
    forall e | e in v.trace && e.Handed? ensures HandedTied(v, e) {
      assert HandedTied(s, e);
    }
  }

  /** The latest sample of the registered run may be handed out. */
  lemma HandSound(s: State, id: nat, hint: Hint)
    requires Sound(s) && id in s.objs && !s.objs[id].cancelled && s.objs[id].key !in s.pending
    ensures Sound(s.(objs := s.objs[id := s.objs[id].(hint := hint)],
            trace := s.trace + [Handed(id, LatestOf(s.objs[id]))]))
  {
    var e := Handed(id, LatestOf(s.objs[id]));
    assert RunTied(s, id);
    forall i | 0 <= i < |s.trace| && s.trace[i].Handed? && s.trace[i].id == id ensures NotBefore(s.trace[i].s, e.s) {
      assert HandedTied(s, s.trace[i]);
    }
    HandOut(s, e);
    HintSound(s.(trace := s.trace + [e]), id, hint);
  }

  /** The run that serves the key, old or new, once its observation is noted. */
  lemma ServedSound(s: State, key: Key, job: string, all: bool) returns (v: State)
    requires Sound(s) && key !in s.pending
    ensures v == if Serves(s, key, job, all) then s else Register(Unregister(s, key), key, job, all)
    ensures Sound(v.(trace := v.trace + [Observed(key)])) && key in v.runs && key !in v.pending
  {
    if Serves(s, key, job, all) {
      AgainSound(s, key);
      v := s;
    } else {
      UnregisterSound(s, key);
      UnregisterKeeps(s, key);
      RegisterSound(Unregister(s, key), key, job, all);
      v := Register(Unregister(s, key), key, job, all);
    }
  }

  lemma ObserveSound(s: State, key: Key, job: string, all: bool, hint: Hint)
    requires Sound(s) && key !in s.pending
    ensures Sound(ObserveIn(s, key, job, all, hint))
  {
    var s1 := ServedSound(s, key, job, all);
    var s2 := s1.(trace := s1.trace + [Observed(key)]);
    HandSound(s2, s1.runs[key], hint);
    assert s1.trace + [Observed(key), Handed(s1.runs[key], LatestOf(s1.objs[s1.runs[key]]))]
        == s2.trace + [Handed(s1.runs[key], LatestOf(s1.objs[s1.runs[key]]))];
  }

  lemma ForgetPending(s: State, key: Key)
    requires Sound(s)
    ensures Sound(s.(pending := s.pending - {key}))
  {
    var v := s.(pending := s.pending - {key});
    forall j | j in v.objs ensures RunTied(v, j) {
      assert RunTied(s, j);
    }
    forall e | e in v.trace && e.Handed? ensures HandedTied(v, e) {
      assert HandedTied(s, e);
    }
  }

  lemma NowSound(s: State, key: Key, sample: Option<Sample>)
    requires Sound(s) && key in s.pending && s.pending[key].at >= 1
    ensures Sound(NowIn(s, key, sample))
  {
    var p := s.pending[key];
    var got := SampleAt(sample, p.at);
    var s1 := s.(pending := s.pending - {key});
    ForgetPending(s, key);
    if key in s.runs && s.runs[key] in s.objs && s.objs[s.runs[key]].job == p.job {
      var id := s.runs[key];
      KeepSound(s1, id, got);
      NowHands(s, key, id, got);
    }
  }

  lemma KeptIsTied(s2: State, id: nat, kept: Sampled, stored: bool)
    requires Sound(s2) && id in s2.objs && s2.objs[id].key !in s2.pending
    requires kept.at <= s2.objs[id].last.at && kept.copySeen == s2.objs[id].copySeen
    requires if stored then s2.objs[id].last == kept else !kept.confirmed
    requires kept.at >= 1
    ensures HandedTied(s2, Handed(id, kept))
    ensures kept.confirmed ==> LastStored(s2.trace, id).Some? && LastStored(s2.trace, id).value == kept
  {
    assert RunTied(s2, id);
  }

  lemma NowHands(s: State, key: Key, id: nat, got: Sampled)
    requires Sound(s) && key in s.pending && key in s.runs && s.runs[key] == id && got.at == s.pending[key].at &&
             !got.confirmed
    requires Sound(KeepIn(s.(pending := s.pending - {key}), id, got)) && got.at >= 1
    ensures var s2 := KeepIn(s.(pending := s.pending - {key}), id, got);
            Sound(s2.(trace := s2.trace + [Handed(id, Keep(s.objs[id], got).1)]))
  {
    var s2 := KeepIn(s.(pending := s.pending - {key}), id, got);
    var (run, kept, stored) := Keep(s.objs[id], got);
    NowIsLast(s, key, id, got);
    KeptIsTied(s2, id, kept, stored);
    HandOut(s2, Handed(id, kept));
  }

  /** Nothing handed out while a SampleNow was in flight is newer than it. */
  lemma NowIsLast(s: State, key: Key, id: nat, got: Sampled)
    requires Sound(s) && key in s.pending && key in s.runs && s.runs[key] == id && got.at == s.pending[key].at
    ensures HandsOn(KeepIn(s.(pending := s.pending - {key}), id, got).trace, id, Keep(s.objs[id], got).1)
  {
    var t := KeepIn(s.(pending := s.pending - {key}), id, got).trace;
    forall i | 0 <= i < |t| && t[i].Handed? && t[i].id == id ensures NotBefore(t[i].s, Keep(s.objs[id], got).1) {
      assert t[i] in s.trace;
      assert HandedTied(s, t[i]);
    }
  }

  lemma LandSound(s: State, id: nat, sample: Option<Sample>)
    requires Sound(s) && id in s.objs && id in s.loops && s.loops[id].Sampling?
    ensures Sound(LandIn(s, id, sample))
  {
    if RunDone(s, id) {
      LoopsSound(s, s.loops[id := Ended]);
    } else {
      KeepSound(s, id, SampleAt(sample, s.loops[id].at));
      LoopsSound(KeepIn(s, id, SampleAt(sample, s.loops[id].at)), s.loops[id := Waiting]);
    }
  }

  lemma LoopsSound(s: State, loops: map<nat, Loop>)
    requires Sound(s) && (forall id :: id in loops ==> id in s.objs)
    requires forall id :: id in loops && loops[id].Sampling? ==> loops[id].at <= s.clock
    ensures Sound(s.(loops := loops))
  {
    var v := s.(loops := loops);
    forall j | j in v.objs ensures RunTied(v, j) {
      assert RunTied(s, j);
    }
    forall e | e in v.trace && e.Handed? ensures HandedTied(v, e) {
      assert HandedTied(s, e);
    }
  }

  lemma BeginSound(s: State, key: Key, job: string)
    requires Sound(s) && key !in s.pending
    ensures Sound(s.(pending := s.pending[key := Pending(job, s.clock)]))
  {
    var v := s.(pending := s.pending[key := Pending(job, s.clock)]);
    forall j | j in v.objs ensures RunTied(v, j) {
      assert RunTied(s, j);
    }
    forall e | e in v.trace && e.Handed? ensures HandedTied(v, e) {
      assert HandedTied(s, e) && RunTied(s, e.id);
    }
  }

  /** The context and the clock move, and every run may be cancelled at once. */
  lemma OtherSound(s: State, v: State)
    requires Sound(s) && v == s.(context := v.context, clock := v.clock) && s.clock <= v.clock
    ensures Sound(v)
  {
    forall j | j in v.objs ensures RunTied(v, j) {
      assert RunTied(s, j);
    }
    forall e | e in v.trace && e.Handed? ensures HandedTied(v, e) {
      assert HandedTied(s, e);
    }
  }

  lemma EndSound(s: State)
    requires Sound(s) && s.context.Done?
    ensures Sound(Do(s, EndS))
  {
    var v := Do(s, EndS);
    forall j | j in v.objs ensures RunTied(v, j) {
      assert RunTied(s, j);
    }
    forall e | e in v.trace && e.Handed? ensures HandedTied(v, e) {
      assert HandedTied(s, e);
    }
  }

  /** No sample in flight began at the zero time. */
  ghost predicate Timely(s: State) {
    s.clock >= 1 && forall k :: k in s.pending ==> s.pending[k].at >= 1
  }

  lemma StepSound(s: State, x: Step)
    requires Sound(s) && Timely(s)
    ensures Sound(Do(s, x))
  {
    match x
    case StartS => OtherSound(s, Do(s, x));
    case CancelS => OtherSound(s, Do(s, x));
    case EndS =>
      if s.context.Done? {
        EndSound(s);
      }
    case ObserveS(key, job, all, hint) =>
      if !s.context.NoContext? && key !in s.pending {
        ObserveSound(s, key, job, all, hint);
      }
    case NowBegins(key, job) =>
      if key !in s.pending {
        BeginSound(s, key, job);
      }
    case NowEnds(key, sample) =>
      if key in s.pending {
        NowSound(s, key, sample);
      }
    case StopS(key) => StopSound(s, key);
    case LoopLands(id, sample) =>
      if id in s.objs && id in s.loops && s.loops[id].Sampling? {
        LandSound(s, id, sample);
      }
    case LoopWakes(id) => WakeSound(s, id);
    case Tick(d) => OtherSound(s, Do(s, x));
  }

  lemma WakeSound(s: State, id: nat)
    requires Sound(s)
    ensures Sound(Do(s, LoopWakes(id)))
  {
    if id in s.objs && id in s.loops && s.loops[id].Waiting? {
      LoopsSound(s, s.loops[id := if RunDone(s, id) then Ended else Sampling(s.clock)]);
    }
  }

  lemma StepTimely(s: State, x: Step)
    requires Timely(s)
    ensures Timely(Do(s, x))
  {
  }

  lemma {:induction false} AlwaysSound(xs: seq<Step>)
    ensures Sound(DoAll(xs)) && Timely(DoAll(xs))
  {
    if xs != [] {
      AlwaysSound(xs[..|xs| - 1]);
      StepSound(DoAll(xs[..|xs| - 1]), xs[|xs| - 1]);
      StepTimely(DoAll(xs[..|xs| - 1]), xs[|xs| - 1]);
    }
  }

  // ------------------------------------------------------------------ the promises

  lemma {:induction false} StoppedThenActive(t: seq<Event>, key: Key, i: nat)
    requires Active(t, key) && i < |t| && t[i] == Stopped(key)
    ensures exists k :: i < k < |t| && t[k] == Observed(key)
  {
    if t[|t| - 1] != Observed(key) {
      StoppedThenActive(t[..|t| - 1], key, i);
      var k :| i < k < |t| - 1 && t[..|t| - 1][k] == Observed(key);
      assert t[k] == Observed(key);
    }
  }

  /** After a Stop of the key no run writes its gauges until the next Observe: the sample of a loop or
      of a pass that was in flight is dropped. */
  lemma NoGaugeAfterStop(xs: seq<Step>, key: Key, i: nat, j: nat)
    requires i < j < |DoAll(xs).trace| && DoAll(xs).trace[i] == Stopped(key) && DoAll(xs).trace[j] == Gauged(key)
    ensures exists k :: i < k < j && DoAll(xs).trace[k] == Observed(key)
  {
    var t := DoAll(xs).trace;
    AlwaysSound(xs);
    assert EventOk(t[..j], t[j]);
    StoppedThenActive(t[..j], key, i);
    var k :| i < k < |t[..j]| && t[..j][k] == Observed(key);
    assert t[k] == Observed(key);
  }

  /** Within a run, the samples handed to passes never start earlier than one before, and copySeen
      never goes back to false. */
  lemma HandedInOrder(xs: seq<Step>, i: nat, j: nat)
    requires i < j < |DoAll(xs).trace| && DoAll(xs).trace[i].Handed? && DoAll(xs).trace[j].Handed?
    requires DoAll(xs).trace[i].id == DoAll(xs).trace[j].id
    ensures DoAll(xs).trace[i].s.at <= DoAll(xs).trace[j].s.at
    ensures DoAll(xs).trace[i].s.copySeen ==> DoAll(xs).trace[j].s.copySeen
  {
    var t := DoAll(xs).trace;
    AlwaysSound(xs);
    assert EventOk(t[..j], t[j]);
    assert t[..j][i] == t[i];
  }

  /** A stored sample confirms a SyncRep wait exactly when it and the one its run stored before it are
      both over 30 s, so a sample handed out twice never confirms itself. */
  lemma ConfirmedNeedsTwo(xs: seq<Step>, j: nat)
    requires j < |DoAll(xs).trace| && DoAll(xs).trace[j].Stored?
    ensures var t := DoAll(xs).trace;
            t[j].s.confirmed <==>
              SyncRepOver(WaitOf(t[j].s.sample)) && LastStored(t[..j], t[j].id).Some? &&
              SyncRepOver(WaitOf(LastStored(t[..j], t[j].id).value.sample))
  {
    AlwaysSound(xs);
    assert EventOk(DoAll(xs).trace[..j], DoAll(xs).trace[j]);
  }

  /** A pass is handed a confirmed wait only as the run's last stored sample. */
  lemma HandedConfirmedIsStored(xs: seq<Step>, j: nat)
    requires j < |DoAll(xs).trace| && DoAll(xs).trace[j].Handed? && DoAll(xs).trace[j].s.confirmed
    ensures var t := DoAll(xs).trace;
            LastStored(t[..j], t[j].id).Some? && LastStored(t[..j], t[j].id).value.confirmed &&
            LastStored(t[..j], t[j].id).value.sample == t[j].s.sample
  {
    AlwaysSound(xs);
    assert EventOk(DoAll(xs).trace[..j], DoAll(xs).trace[j]);
  }

  // ------------------------------------------------------------------ the object

  /** With no run registered, every run is cancelled. */
  lemma AllCancelled(s: State, v: State)
    requires Registered(v) && v.runs == map[] && v.objs.Keys == s.objs.Keys
    requires forall id :: id in v.objs ==> v.objs[id] == s.objs[id] || v.objs[id] == s.objs[id].(cancelled := true)
    ensures v.objs == map id | id in s.objs :: s.objs[id].(cancelled := true)
  {
    forall id | id in v.objs ensures v.objs[id] == s.objs[id].(cancelled := true) {
      assert v.objs[id].cancelled;
    }
  }

  /** One more key is stopped. */
  lemma StopStep(s: State, v: State, key: Key)
    requires Registered(v) && key in v.runs && v.objs.Keys == s.objs.Keys && v == s.(runs := v.runs, objs := v.objs)
    requires forall id :: id in v.objs ==> v.objs[id] == s.objs[id] || v.objs[id] == s.objs[id].(cancelled := true)
    ensures var u := Unregister(v, key);
            && Registered(u) && u.objs.Keys == s.objs.Keys && u == s.(runs := u.runs, objs := u.objs)
            && (forall id :: id in u.objs ==> u.objs[id] == s.objs[id] || u.objs[id] == s.objs[id].(cancelled := true))
            && u.runs.Keys == v.runs.Keys - {key}
  {
    UnregisterKeeps(v, key);
  }

  /** The sampler itself. Each method is one lock section, or one step of a goroutine between two. */
  class Sampler {
    var context: Context
    var runs: map<Key, nat>
    var objs: map<nat, Run>
    var loops: map<nat, Loop>
    var pending: map<Key, Pending>
    var next: nat
    var clock: int
    ghost var trace: seq<Event>

    ghost function Abs(): State
      reads this
    {
      State(context, runs, objs, loops, pending, next, clock, trace)
    }

    constructor ()
      ensures Abs() == START
    {
      context, runs, objs, loops, pending, next, clock, trace := NoContext, map[], map[], map[], map[], 0, 1, [];
    }

    /** stopLocked. */
    method StopLocked(key: Key)
      modifies this`runs, this`objs
      ensures Abs() == Unregister(old(Abs()), key)
    {
      if key in runs && runs[key] in objs {
        var id := runs[key];
        objs := objs[id := objs[id].(cancelled := true)];
        runs := runs - {key};
      }
    }

    /** keepLocked: latches the copy, and stores the sample unless the run holds a newer one. */
    method KeepLocked(id: nat, taken: Sampled) returns (got: Sampled)
      requires id in objs
      modifies this`objs, this`trace
      ensures Abs() == KeepIn(old(Abs()), id, taken) && got == Keep(old(objs)[id], taken).1
    {
      var run := objs[id];
      run := run.(copySeen := run.copySeen || taken.copySeen);
      got := taken.(copySeen := run.copySeen);
      objs := objs[id := run];
      if got.at < run.last.at {
        return;
      }
      var over := SyncRepOver(WaitOf(got.sample));
      got := got.(confirmed := over && run.over);
      run := run.(over := over);
      run := run.(last := got);
      objs := objs[id := run];
      assert objs == old(objs)[id := run];
      trace := trace + [Stored(id, got), Gauged(run.key)];
    }

    method Start()
      modifies this`context
      ensures Abs() == Do(old(Abs()), StartS)
    {
      if context.NoContext? {
        context := Live;
      }
    }

    /** The manager cancels the context Start waits on. */
    method Cancel()
      modifies this`context
      ensures Abs() == Do(old(Abs()), CancelS)
    {
      if context.Live? {
        context := Done;
      }
    }

    /** Start's end: every run ends with it. */
    method End()
      requires Registered(Abs())
      modifies this
      ensures Abs() == Do(old(Abs()), EndS)
    {
      if !context.Done? {
        return;
      }
      StopAll();
      context := NoContext;
    }

    method StopAll()
      requires Registered(Abs())
      modifies this`runs, this`objs
      ensures Abs() == old(Abs()).(runs := map[], objs := map id | id in old(objs) :: old(objs)[id].(cancelled := true))
    {
      ghost var before := Abs();
      while runs.Keys != {}
        invariant Registered(Abs()) && objs.Keys == before.objs.Keys
        invariant Abs() == before.(runs := runs, objs := objs)
        invariant forall id :: id in objs ==>
                    objs[id] == before.objs[id] || objs[id] == before.objs[id].(cancelled := true)
        decreases |runs.Keys|
      {
        var key: Key :| key in runs.Keys;
        ghost var was := Abs();
        StopLocked(key);
        StopStep(before, was, key);
      }
      assert runs == map[];
      AllCancelled(before, Abs());
    }

    /** A run for this Job is registered, if need be in the place of another Job's. */
    method Serve(key: Key, job: string, all: bool)
      requires Registered(Abs())
      modifies this`runs, this`objs, this`loops, this`next
      ensures var s := old(Abs());
              Abs() == if Serves(s, key, job, all) then s else Register(Unregister(s, key), key, job, all)
      ensures key in runs && runs[key] in objs
    {
      if key in runs && (objs[runs[key]].job != job || objs[runs[key]].allDatabases != all) {
        StopLocked(key);
      }
      if key !in runs {
        objs := objs[next := NewRun(key, job, all)];
        runs := runs[key := next];
        loops := loops[next := Sampling(clock)];
        next := next + 1;
      }
    }

    /** Observe: keeps a run going for the worker Job, and hands the pass its latest sample. */
    method Observe(key: Key, job: string, all: bool, hint: Hint) returns (got: Sampled, ok: bool)
      requires Registered(Abs()) && key !in pending
      modifies this
      ensures Abs() == Do(old(Abs()), ObserveS(key, job, all, hint))
      ensures ok == !old(context).NoContext?
      ensures ok ==> Abs().trace[|Abs().trace| - 1] == Handed(runs[key], got)
    {
      if context.NoContext? {
        return NO_SAMPLE, false;
      }
      Serve(key, job, all);
      var id := runs[key];
      got := objs[id].last;
      got := got.(copySeen := objs[id].copySeen);
      objs := objs[id := objs[id].(hint := hint)];
      trace := trace + [Observed(key), Handed(id, got)];
      ok := true;
    }

    /** SampleNow, up to its sample. */
    method SampleNowBegins(key: Key, job: string)
      modifies this`pending
      ensures Abs() == Do(old(Abs()), NowBegins(key, job))
    {
      if key !in pending {
        pending := pending[key := Pending(job, clock)];
      }
    }

    /** SampleNow's lock section: the sample is kept as the run's own if the run still stands. */
    method SampleNowEnds(key: Key, sample: Option<Sample>) returns (got: Sampled)
      requires Registered(Abs()) && key in pending
      modifies this
      ensures Abs() == Do(old(Abs()), NowEnds(key, sample))
      ensures got.sample == sample && got.at == old(pending)[key].at
      ensures var p := old(pending)[key];
              var stands := key in old(runs) && old(objs)[old(runs)[key]].job == p.job;
              && got == (if stands then Keep(old(objs)[old(runs)[key]], SampleAt(sample, p.at)).1
                 else SampleAt(sample, p.at))
              && (stands ==> trace[|trace| - 1] == Handed(runs[key], got))
              && (!stands ==> !got.confirmed)
    {
      var p := pending[key];
      got := SampleAt(sample, p.at);
      pending := pending - {key};
      if key in runs && objs[runs[key]].job == p.job {
        var id := runs[key];
        got := KeepLocked(id, got);
        trace := trace + [Handed(id, got)];
      }
    }

    method Stop(key: Key)
      modifies this
      ensures Abs() == Do(old(Abs()), StopS(key))
    {
      StopLocked(key);
      trace := trace + [Stopped(key)];
    }

    /** A run's goroutine, back from its sample: a done context ends it before it writes. */
    method LoopLands(id: nat, sample: Option<Sample>)
      requires id in objs && id in loops && loops[id].Sampling?
      modifies this
      ensures Abs() == Do(old(Abs()), Step.LoopLands(id, sample))
    {
      if objs[id].cancelled || !context.Live? {
        loops := loops[id := Ended];
        return;
      }
      var _ := KeepLocked(id, SampleAt(sample, loops[id].at));
      loops := loops[id := Waiting];
    }

    /** The timer fires, or the context ends the wait. */
    method LoopWakes(id: nat)
      requires id in objs && id in loops && loops[id].Waiting?
      modifies this`loops
      ensures Abs() == Do(old(Abs()), Step.LoopWakes(id))
    {
      loops := loops[id := if objs[id].cancelled || !context.Live? then Ended else Sampling(clock)];
    }
  }
}
