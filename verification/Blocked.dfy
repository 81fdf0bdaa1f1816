/** CommitsBlocked from end to end: a run of the reconciler whose passes are fed by a sampler. */
module BlockedCommits {
  import opened Text
  import opened Conditions
  import opened Samples
  import opened Cluster
  import opened Passes
  import opened Runs
  import opened Rules
  import opened Histories
  import opened Latches
  import Samplers

  type Trace = seq<Samplers.Event>

  // ------------------------------------------------------------------ in the sampler

  /** p and q are consecutive stores of one run, and j hands out what q stored before the next. */
  predicate HandsSecondOf(t: Trace, p: nat, q: nat, j: nat) {
    && p < q < j < |t| && t[p].Stored? && t[q].Stored? && t[j].Handed?
    && t[p].id == t[q].id == t[j].id && t[j].s.sample == t[q].s.sample
    && (forall r :: p < r < j && r != q && t[r].Stored? ==> t[r].id != t[j].id)
  }

  lemma {:induction false} StoreOf(t: Trace, id: nat) returns (q: nat)
    requires Samplers.LastStored(t, id).Some?
    ensures q < |t| && t[q] == Samplers.Stored(id, Samplers.LastStored(t, id).value)
    ensures forall r :: q < r < |t| && t[r].Stored? ==> t[r].id != id
  {
    var n := |t| - 1;
    if t[n].Stored? && t[n].id == id {
      q := n;
    } else {
      q := StoreOf(t[..n], id);
      assert t[q] == t[..n][q];
      forall r | q < r < |t| && t[r].Stored? ensures t[r].id != id {
        assert r < n ==> t[r] == t[..n][r];
      }
    }
  }

  /** A confirmed sample that is handed out was stored right after another, both over 30 s. */
  lemma HandedIsSecond(xs: seq<Samplers.Step>, j: nat) returns (p: nat, q: nat)
    requires var t := Samplers.DoAll(xs).trace; j < |t| && t[j].Handed? && t[j].s.confirmed
    ensures var t := Samplers.DoAll(xs).trace;
            && HandsSecondOf(t, p, q, j)
            && SyncRepOver(WaitOf(t[p].s.sample)) && SyncRepOver(WaitOf(t[q].s.sample))
  {
    var t := Samplers.DoAll(xs).trace;
    var id := t[j].id;
    Samplers.HandedConfirmedIsStored(xs, j);
    q := StoreOf(t[..j], id);
    assert t[q] == t[..j][q];
    Samplers.ConfirmedNeedsTwo(xs, q);
    p := StoreOf(t[..q], id);
    assert t[p] == t[..q][p];
    forall r | p < r < j && r != q && t[r].Stored? ensures t[r].id != id {
      assert r < q ==> t[r] == t[..q][r];
      assert q < r ==> t[r] == t[..j][r];
    }
  }

  // ------------------------------------------------------------------ and in the reconciler

  /** A sample that confirms a wait was handed out: a pass that samples for itself never confirms. */
  predicate Given(t: Trace, got: Sampled) {
    got.confirmed ==> exists j :: 0 <= j < |t| && t[j].Handed? && t[j].s == got
  }

  /** Every pass of the run reads samples of the sampler. */
  predicate Fed(ls: seq<Label>, t: Trace) {
    forall k :: 0 <= k < |ls| && ls[k].PassL? ==> Given(t, ls[k].o.latest) && Given(t, ls[k].o.now)
  }

  lemma EventIsFed(w0: World, ls: seq<Label>, t: Trace, i: nat)
    requires i < |Events(w0, ls)| && Fed(ls, t)
    ensures var o := Events(w0, ls)[i].o; Given(t, o.latest) && Given(t, o.now)
  {
    var es := EventsGrounded(w0, ls);
    ReadIsFed(ls, t, es[i].o);
  }

  lemma ReadIsFed(ls: seq<Label>, t: Trace, o: Obs)
    requires Fed(ls, t) && ReadIn(ls, o)
    ensures Given(t, o.latest) && Given(t, o.now)
  {
  }

  /** Over every run fed by any interleaving of the sampler, CommitsBlocked turns True only on a sample
      that its sampler run stored right after another, with a waiter at or over 30 s in both. */
  lemma BlockedNeedsTwoSamples(w0: World, ls: seq<Label>, xs: seq<Samplers.Step>, i: nat)
      returns (p: nat, q: nat, j: nat)
    requires Init(w0) && Fed(ls, Samplers.DoAll(xs).trace) && i < |Events(w0, ls)|
    requires !True(Events(w0, ls)[i].v.status, CommitsBlocked) && True(After(Events(w0, ls)[i]), CommitsBlocked)
    ensures var t := Samplers.DoAll(xs).trace;
            var e := Events(w0, ls)[i];
            && HandsSecondOf(t, p, q, j) && t[j].s == PassSample(e.v.spec, e.v.status, e.o)
            && SyncRepOver(WaitOf(t[p].s.sample)) && SyncRepOver(WaitOf(t[q].s.sample))
  {
    var e := Events(w0, ls)[i];
    var got := PassSample(e.v.spec, e.v.status, e.o);
    BlockedNeedsProof(w0, ls, i);
    EventIsFed(w0, ls, Samplers.DoAll(xs).trace, i);
    j := HandOut(Samplers.DoAll(xs).trace, got);
    p, q := HandedIsSecond(xs, j);
  }

  lemma HandOut(t: Trace, got: Sampled) returns (j: nat)
    requires got.confirmed && Given(t, got)
    ensures j < |t| && t[j].Handed? && t[j].s == got
  {
    j :| 0 <= j < |t| && t[j].Handed? && t[j].s == got;
  }
}
