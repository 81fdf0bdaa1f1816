/** The landed writes of a run, each with the world it lands on: what theorems about histories range
    over. */
module Histories {
  import opened Text
  import opened Conditions
  import opened Cluster
  import opened Passes
  import opened Runs
  import opened Invariant
  import opened Steps
  import opened Rules
  import opened PassRules
  import opened ReconcileRules

  datatype Event = Event(v: World, o: Obs, x: Write)

  ghost function EventsOf(w: World, o: Obs, ws: seq<Write>): (es: seq<Event>)
    ensures |es| == |ws|
    decreases |ws|
  {
    if ws == [] then [] else [Event(w, o, ws[0])] + EventsOf(Apply(w, ws[0]), o, ws[1..])
  }

  /** Every landed write of the run, in order. */
  ghost function Events(w0: World, ls: seq<Label>): seq<Event>
    decreases |ls|
  {
    if ls == [] then []
    else
      var w := Run(w0, ls[..|ls| - 1]);
      var l := ls[|ls| - 1];
      Events(w0, ls[..|ls| - 1]) + LabelEvents(w, l)
  }

  /** What one step of the run lands. */
  ghost function LabelEvents(w: World, l: Label): seq<Event> {
    if l.PassL? && ValidObs(w, l.o) then EventsOf(w, l.o, Prefix(Pass(w, l.o), l.landed)) else []
  }

  /** The status after an event. */
  function After(e: Event): Status { Apply(e.v, e.x).status }

  /** The status the event lands on is the one the event before it left. */
  ghost predicate Chain(es: seq<Event>, s: Status) {
    forall i :: 0 <= i < |es| ==> es[i].v.status == Before(es, s, i)
  }

  /** The status before the i-th event. */
  function Before(es: seq<Event>, s: Status, i: int): Status
    requires 0 <= i <= |es|
  {
    if i == 0 then s else After(es[i - 1])
  }

  function Last(es: seq<Event>, s: Status): Status {
    Before(es, s, |es|)
  }

  /** The writes of a pass share its reading and the spec it started on. */
  lemma {:induction false} EventsOfPass(w: World, o: Obs, ws: seq<Write>)
    ensures forall i :: 0 <= i < |EventsOf(w, o, ws)| ==>
              EventsOf(w, o, ws)[i].o == o && EventsOf(w, o, ws)[i].v.spec == w.spec
    decreases |ws|
  {
    if ws != [] {
      EventsOfPass(Apply(w, ws[0]), o, ws[1..]);
    }
  }

  /** The events of a step, each with the step's reading and spec. */
  lemma StepEvents(w: World, l: Label) returns (es: seq<Event>)
    ensures es == LabelEvents(w, l)
    ensures forall i :: 0 <= i < |es| ==> l.PassL? && es[i].o == l.o && es[i].v.spec == w.spec
  {
    es := LabelEvents(w, l);
    if es != [] {
      EventsOfPass(w, l.o, Prefix(Pass(w, l.o), l.landed));
    }
  }

  /** A run's events are those before its last step, and that step's. */
  lemma LastEvents(w0: World, ls: seq<Label>, a: seq<Event>) returns (b: seq<Event>, w: World)
    requires ls != [] && a == Events(w0, ls[..|ls| - 1])
    ensures w == Run(w0, ls[..|ls| - 1]) && Events(w0, ls) == a + b
    ensures forall i :: 0 <= i < |b| ==> ls[|ls| - 1].PassL? && b[i].o == ls[|ls| - 1].o && b[i].v.spec == w.spec
  {
    w := Run(w0, ls[..|ls| - 1]);
    b := StepEvents(w, ls[|ls| - 1]);
  }

  // ------------------------------------------------------------------ the invariant over runs

  /** The outside world never writes the status. */
  lemma EnvKeepsStatus(w: World, e: Env)
    ensures EnvStep(w, e).status == w.status
  {
  }

  lemma {:induction false} PrefixKeepsInv(p: WriteRule, w: World, o: Obs, ws: seq<Write>, n: nat)
    requires Every(p, w, ws) && Inv(w) && forall v, x :: p(v, x) ==> Inv(Apply(v, x))
    ensures Inv(ApplyAll(w, Prefix(ws, n)))
    decreases |ws|
  {
    var ps := Prefix(ws, n);
    if ps != [] {
      PrefixKeepsInv(p, Apply(w, ws[0]), o, ws[1..], n - 1);
      assert ps[1..] == Prefix(ws[1..], n - 1);
    }
  }

  ghost function LawfulWrite(o: Obs): WriteRule {
    (v, x) => Lawful(v, o, x)
  }

  /** A pass keeps the invariant wherever it crashes. */
  lemma PassKeepsInv(w: World, o: Obs, n: nat)
    requires Inv(w) && ValidObs(w, o)
    ensures Inv(ApplyAll(w, Prefix(Pass(w, o), n)))
  {
    PassIsLawful(LawfulWrite(o), w, o);
    PrefixKeepsInv(LawfulWrite(o), w, o, Pass(w, o), n);
  }

  /** The invariant holds after every run: passes that crash anywhere, and any outside step between. */
  lemma {:induction false} InvAlways(w0: World, ls: seq<Label>)
    requires Init(w0)
    ensures Inv(Run(w0, ls))
    decreases |ls|
  {
    if ls == [] {
      InvAtStart(w0);
    } else {
      var w := Run(w0, ls[..|ls| - 1]);
      InvAlways(w0, ls[..|ls| - 1]);
      match ls[|ls| - 1]
      case PassL(o, n) =>
        if ValidObs(w, o) {
          PassKeepsInv(w, o, n);
        }
      case EnvL(e) => EnvKeeps(w, e);
    }
  }

  lemma InvAtStart(w: World)
    requires Init(w)
    ensures Inv(w)
  {
  }

  // ------------------------------------------------------------------ lawful events

  lemma {:induction false} EventsOfLawful(w: World, o: Obs, ws: seq<Write>, n: nat)
    requires Every(LawfulWrite(o), w, ws)
    ensures forall i :: 0 <= i < |EventsOf(w, o, Prefix(ws, n))| ==>
              var e := EventsOf(w, o, Prefix(ws, n))[i]; e.o == o && LawfulWrite(o)(e.v, e.x)
    decreases |ws|
  {
    var ps := Prefix(ws, n);
    if ps != [] {
      EventsOfLawful(Apply(w, ws[0]), o, ws[1..], n - 1);
      assert ps[1..] == Prefix(ws[1..], n - 1);
    }
  }

  /** Every landed write of every run obeys the rules in the world it lands on. */
  lemma {:induction false} EveryWriteIsLawful(w0: World, ls: seq<Label>, i: nat)
    requires Init(w0) && i < |Events(w0, ls)|
    ensures var e := Events(w0, ls)[i]; Lawful(e.v, e.o, e.x)
    decreases |ls|
  {
    var front := ls[..|ls| - 1];
    var w := Run(w0, front);
    if i < |Events(w0, front)| {
      EveryWriteIsLawful(w0, front, i);
    } else {
      var l := ls[|ls| - 1];
      InvAlways(w0, front);
      PassIsLawful(LawfulWrite(l.o), w, l.o);
      EventsOfLawful(w, l.o, Pass(w, l.o), l.landed);
      assert Events(w0, ls)[i] == EventsOf(w, l.o, Prefix(Pass(w, l.o), l.landed))[i - |Events(w0, front)|];
    }
  }

  lemma {:induction false} EventsOfChain(w: World, o: Obs, ws: seq<Write>)
    ensures Chain(EventsOf(w, o, ws), w.status) && Last(EventsOf(w, o, ws), w.status) == ApplyAll(w, ws).status
    decreases |ws|
  {
    if ws != [] {
      EventsOfChain(Apply(w, ws[0]), o, ws[1..]);
    }
  }

  lemma ChainConcat(a: seq<Event>, b: seq<Event>, s: Status)
    requires Chain(a, s) && Chain(b, Last(a, s))
    ensures Chain(a + b, s) && Last(a + b, s) == Last(b, Last(a, s))
  {
    var es := a + b;
    forall i | 0 <= i < |es| ensures es[i].v.status == Before(es, s, i) {
      if i < |a| {
        assert es[i] == a[i];
      } else {
        assert es[i] == b[i - |a|];
      }
    }
    if b == [] {
      assert a + b == a;
    }
  }

  lemma LabelChain(w: World, l: Label)
    ensures Chain(LabelEvents(w, l), w.status) && Last(LabelEvents(w, l), w.status) == Next(w, l).status
  {
    match l
    case PassL(o, n) =>
      if ValidObs(w, o) {
        EventsOfChain(w, o, Prefix(Pass(w, o), n));
      }
    case EnvL(e) => EnvKeepsStatus(w, e);
  }

  /** The status moves by landed writes only. */
  lemma {:induction false} EventsChain(w0: World, ls: seq<Label>)
    ensures Chain(Events(w0, ls), w0.status) && Last(Events(w0, ls), w0.status) == Run(w0, ls).status
    decreases |ls|
  {
    if ls != [] {
      var front := ls[..|ls| - 1];
      EventsChain(w0, front);
      LabelChain(Run(w0, front), ls[|ls| - 1]);
      ChainConcat(Events(w0, front), LabelEvents(Run(w0, front), ls[|ls| - 1]), w0.status);
    }
  }

  // ------------------------------------------------------------------ along a chain of events

  /** A property that every event keeps, with the value of g, is kept by a stretch of events. */
  lemma {:induction false} KeptAlong<T>(p: Status -> bool, g: Status -> T, es: seq<Event>, s: Status, i: nat, j: nat)
    requires Chain(es, s) && i <= j <= |es| && p(Before(es, s, i))
    requires forall k :: i <= k < j && p(es[k].v.status) ==> p(After(es[k])) && g(After(es[k])) == g(es[k].v.status)
    ensures p(Before(es, s, j)) && g(Before(es, s, j)) == g(Before(es, s, i))
  {
    if i < j {
      KeptAlong(p, g, es, s, i, j - 1);
      var e := es[j - 1];
      assert e.v.status == Before(es, s, j - 1) && After(e) == Before(es, s, j);
      assert p(After(e)) && g(After(e)) == g(e.v.status);
    }
  }

  /** How many of the events have the property. */
  ghost function Count(c: Event -> bool, es: seq<Event>): nat {
    if es == [] then 0 else Count(c, es[..|es| - 1]) + (if c(es[|es| - 1]) then 1 else 0)
  }

  lemma CountGrows(c: Event -> bool, es: seq<Event>, i: nat)
    requires i < |es|
    ensures Count(c, es[..i + 1]) == Count(c, es[..i]) + (if c(es[i]) then 1 else 0)
  {
    assert es[..i + 1][..i] == es[..i];
  }

  lemma {:induction false} CountOf(vs: seq<int>, c: Event -> bool, es: seq<Event>, i: nat)
    requires |vs| == |es| + 1 && i <= |es|
    requires forall k :: 0 <= k < |es| ==> vs[k + 1] == vs[k] + (if c(es[k]) then 1 else 0)
    ensures vs[i] == vs[0] + Count(c, es[..i])
  {
    if i > 0 {
      CountOf(vs, c, es, i - 1);
      CountGrows(c, es, i - 1);
      assert vs[(i - 1) + 1] == vs[i - 1] + (if c(es[i - 1]) then 1 else 0);
    }
  }

  /** A counter that moves by one exactly at the counted events holds their number. */
  lemma CountAlong(f: Status -> int, c: Event -> bool, es: seq<Event>, s: Status, i: nat)
    requires Chain(es, s) && i <= |es|
    requires forall k :: 0 <= k < |es| ==> f(After(es[k])) == f(es[k].v.status) + (if c(es[k]) then 1 else 0)
    ensures f(Before(es, s, i)) == f(s) + Count(c, es[..i])
  {
    var vs := seq(|es| + 1, k requires 0 <= k <= |es| => f(Before(es, s, k)));
    forall k | 0 <= k < |es| ensures vs[k + 1] == vs[k] + (if c(es[k]) then 1 else 0) {
      assert es[k].v.status == Before(es, s, k) && After(es[k]) == Before(es, s, k + 1);
    }
    CountOf(vs, c, es, i);
  }

  /** What the last event that sets the value sets it to. */
  ghost function LastSet(u: Event -> Option<bool>, es: seq<Event>): Option<bool> {
    if es == [] then None
    else if u(es[|es| - 1]).Some? then u(es[|es| - 1])
    else LastSet(u, es[..|es| - 1])
  }

  lemma LastSetGrows(u: Event -> Option<bool>, es: seq<Event>, i: nat)
    requires i < |es|
    ensures LastSet(u, es[..i + 1]) == if u(es[i]).Some? then u(es[i]) else LastSet(u, es[..i])
  {
    assert es[..i + 1][..i] == es[..i];
  }

  function Bit(b: bool): int { if b then 1 else 0 }

  lemma {:induction false} SetOf(vs: seq<int>, u: Event -> Option<bool>, es: seq<Event>, i: nat)
    requires |vs| == |es| + 1 && i <= |es| && vs[0] == 0
    requires forall k :: 0 <= k < |es| ==> vs[k + 1] == (if u(es[k]).Some? then Bit(u(es[k]).value) else vs[k])
    ensures vs[i] == Bit(LastSet(u, es[..i]) == Some(true))
  {
    if i > 0 {
      SetOf(vs, u, es, i - 1);
      LastSetGrows(u, es, i - 1);
      assert vs[(i - 1) + 1] == (if u(es[i - 1]).Some? then Bit(u(es[i - 1]).value) else vs[i - 1]);
    }
  }

  /** The flag before each event and after the last. */
  lemma Flags(f: Status -> bool, es: seq<Event>, s: Status) returns (vs: seq<int>)
    ensures |vs| == |es| + 1 && forall k :: 0 <= k <= |es| ==> vs[k] == Bit(f(Before(es, s, k)))
  {
    vs := [];
    while |vs| <= |es|
      invariant |vs| <= |es| + 1 && forall k :: 0 <= k < |vs| ==> vs[k] == Bit(f(Before(es, s, k)))
    {
      vs := vs + [Bit(f(Before(es, s, |vs|)))];
    }
  }

  /** A flag of the status that only the setting events move is what the last of them set. */
  lemma SetAlong(f: Status -> bool, u: Event -> Option<bool>, es: seq<Event>, s: Status, i: nat)
    requires Chain(es, s) && i <= |es| && !f(s)
    requires forall k :: 0 <= k < |es| ==>
               f(After(es[k])) == (if u(es[k]).Some? then u(es[k]).value else f(es[k].v.status))
    ensures f(Before(es, s, i)) <==> LastSet(u, es[..i]) == Some(true)
  {
    var vs := Flags(f, es, s);
    forall k | 0 <= k < |es| ensures vs[k + 1] == (if u(es[k]).Some? then Bit(u(es[k]).value) else vs[k]) {
      assert es[k].v.status == Before(es, s, k) && After(es[k]) == Before(es, s, k + 1);
    }
    SetOf(vs, u, es, i);
  }

  // ------------------------------------------------------------------ what one event keeps

  lemma PatchObeys(e: Event)
    requires Lawful(e.v, e.o, e.x) && e.x.Patch?
    ensures PatchRule(e.v, e.o, e.x.status, e.x.locked)
  {
  }

  lemma CreateObeys(e: Event)
    requires Lawful(e.v, e.o, e.x) && e.x.CreateJob?
    ensures CreateRule(e.v, e.o, e.x.key, e.x.job)
  {
  }

  /** Nothing but a patch changes the status. */
  lemma OnlyPatches(e: Event)
    requires !e.x.Patch?
    ensures After(e) == e.v.status
  {
  }

  predicate Exempted(m: Status) { m.gate.Some? && m.gate.value.verdict.Exempt? }

  predicate Recording(e: Event) { After(e).attempts != e.v.status.attempts }

  predicate CountsKept(e: Event) {
    && After(e).exempt == e.v.status.exempt + (if Exempted(After(e)) && !Exempted(e.v.status) then 1 else 0)
    && After(e).attempts == e.v.status.attempts + (if Recording(e) then 1 else 0)
  }

  predicate VerdictKept(e: Event) {
    !Recording(e) && e.v.status.gate.Some? && !e.v.status.gate.value.verdict.Undecided? ==>
      After(e).gate == e.v.status.gate && After(e).exempt == e.v.status.exempt
  }

  predicate LatchKept(e: Event) {
    LagSeenBelow(After(e)) ==
      if e.x.Patch? && Acting(e.v, e.o) then NowBelow(e.v, e.o) else LagSeenBelow(e.v.status)
  }

  predicate EndposKept(e: Event) {
    EndposHeld(e.v.status) ==>
      EndposHeld(After(e)) && After(e).repl.value.endpos == e.v.status.repl.value.endpos && !e.x.SetEndpos?
  }

  predicate TerminalKept(e: Event) {
    Terminal(e.v.status) ==>
      && Terminal(After(e)) && (e.x.CreateJob? ==> e.v.deleting && e.x.key.Cleanup?)
      && (True(After(e), Complete) <==> True(e.v.status, Complete))
  }

  predicate CloneKept(e: Event) {
    CloneOnlyDone(e.v) ==> True(After(e), CloneCompleted) && !(e.x.CreateJob? && e.x.key.Worker?)
  }

  ghost predicate Kept(e: Event) {
    CountsKept(e) && VerdictKept(e) && LatchKept(e) && EndposKept(e) && TerminalKept(e) && CloneKept(e)
  }

  lemma CountsAreKept(e: Event)
    requires Lawful(e.v, e.o, e.x)
    ensures CountsKept(e) && VerdictKept(e)
  {
    if e.x.Patch? {
      PatchObeys(e);
      CountsByRule(e);
    }
  }

  lemma CountsByRule(e: Event)
    requires e.x.Patch? && AttemptRule(e.v, e.x.status) && GateRule(e.v, e.o, e.x.status, e.x.locked)
    ensures CountsKept(e) && VerdictKept(e)
  {
  }

  lemma StreamIsKept(e: Event)
    requires Lawful(e.v, e.o, e.x)
    ensures LatchKept(e) && EndposKept(e)
  {
    if e.x.Patch? {
      PatchObeys(e);
      StreamByRule(e);
    }
  }

  lemma StreamByRule(e: Event)
    requires e.x.Patch? && LatchRule(e.v, e.o, e.x.status) && EndposRule(e.v, e.o, e.x.status)
    ensures LatchKept(e) && EndposKept(e)
  {
  }

  lemma OutcomeIsKept(e: Event)
    requires Lawful(e.v, e.o, e.x)
    ensures TerminalKept(e) && CloneKept(e)
  {
    if e.x.Patch? {
      PatchObeys(e);
      OutcomeByRule(e);
    } else if e.x.CreateJob? {
      CreateByRule(e);
    }
  }

  lemma CreateByRule(e: Event)
    requires e.x.CreateJob? && CreateRule(e.v, e.o, e.x.key, e.x.job)
    ensures Live(e.v) || (e.v.deleting && e.x.key.Cleanup?)
    ensures e.x.key.Worker? ==> !CloneOnlyDone(e.v)
  {
  }

  lemma OutcomeByRule(e: Event)
    requires e.x.Patch? && OutcomeRule(e.v, e.o, e.x.status) && CopyRule(e.v, e.o, e.x.status)
    ensures TerminalKept(e) && CloneKept(e)
  {
  }

  ghost predicate Trail(es: seq<Event>, s: Status) {
    Chain(es, s) && forall k :: 0 <= k < |es| ==> Kept(es[k])
  }

  lemma RunsAreTrails(w0: World, ls: seq<Label>)
    requires Init(w0)
    ensures Trail(Events(w0, ls), w0.status)
  {
    EventsChain(w0, ls);
    forall k | 0 <= k < |Events(w0, ls)| ensures Kept(Events(w0, ls)[k]) {
      var e := Events(w0, ls)[k];
      EveryWriteIsLawful(w0, ls, k);
      CountsAreKept(e);
      StreamIsKept(e);
      OutcomeIsKept(e);
    }
  }
}
