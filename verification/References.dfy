/** Conservation of references. */
module References {
  import opened Values
  import opened Engine
  import opened Cloning
  import opened Delivery

  /** How often one record refers to promise `i`: its slots and its await link. */
  function Holds(i: nat): Rec -> nat {
    (r: Rec) => multiset(r.handlers)[i] + if r.await == Some(i) then 1 else 0
  }

  function CountOf(recs: seq<Rec>, i: nat): int { if i < |recs| then recs[i].refs else 0 }

  /** The references to `i` that no record accounts for: those held by users and by running loops. */
  function Outside(recs: seq<Rec>, i: nat): int { CountOf(recs, i) - Sum(Holds(i), recs) }

  lemma Update(recs: seq<Rec>, j: nat, r: Rec, i: nat)
    requires j < |recs|
    ensures Outside(recs[j := r], i) == Outside(recs, i) + (if i == j then r.refs - recs[j].refs else 0)
                                        + Holds(i)(recs[j]) - Holds(i)(r)
  {
    SumUpdate(Holds(i), recs, j, r);
  }

  function Is(b: bool): int { if b then 1 else 0 }

  lemma AddRefOutside(recs: seq<Rec>, j: nat, d: int, i: nat)
    requires j < |recs|
    ensures Outside(AddRef(recs, j, d), i) == Outside(recs, i) + if i == j then d else 0
  {
    Update(recs, j, recs[j].(refs := recs[j].refs + d), i);
  }

  lemma PushOutside(recs: seq<Rec>, c: nat, x: nat, i: nat)
    requires c < |recs|
    ensures Outside(PushSlot(recs, c, x), i) == Outside(recs, i) - Is(i == x)
  {
    Update(recs, c, PushSlot(recs, c, x)[c], i);
  }

  lemma RelinkOutside(recs: seq<Rec>, x: nat, t: nat, c: nat, i: nat)
    requires x < |recs| && t < |recs| && c < |recs|
    ensures Outside(Relink(recs, x, t, c), i) == Outside(recs, i)
  {
    if recs[x].await == Some(t) {
      var r1 := recs[x := recs[x].(await := Some(c))];
      Update(recs, x, r1[x], i);
      AddRefOutside(r1, c, 1, i);
      AddRefOutside(AddRef(r1, c, 1), t, -1, i);
    }
  }

  lemma DropSlotOutside(recs: seq<Rec>, t: nat, k: nat, i: nat)
    requires t < |recs| && k < |recs[t].handlers|
    ensures Outside(DropSlot(recs, t, k), i) == Outside(recs, i) + Is(i == recs[t].handlers[k])
  {
    var hs := recs[t].handlers;
    assert hs == hs[..k] + [hs[k]] + hs[k + 1..];
    Update(recs, t, DropSlot(recs, t, k)[t], i);
  }

  lemma MoveOutside(recs: seq<Rec>, t: nat, c: nat, k: nat, i: nat)
    requires t < |recs| && c < |recs| && c != t && k < |recs[t].handlers| && recs[t].handlers[k] < |recs|
    ensures Outside(MoveSlot(recs, t, c, k), i) == Outside(recs, i)
  {
    var x := recs[t].handlers[k];
    PushOutside(recs, c, x, i);
    RelinkOutside(PushSlot(recs, c, x), x, t, c, i);
    DropSlotOutside(Relink(PushSlot(recs, c, x), x, t, c), t, k, i);
  }

  lemma StartedOutside(recs: seq<Rec>, p: nat, i: nat)
    requires p < |recs| && (recs[p].await.Some? ==> recs[p].await.value < |recs|)
    ensures Outside(Started(recs, p), i) == Outside(recs, i)
  {
    if recs[p].await.Some? {
      var r1 := AddRef(recs, recs[p].await.value, -1);
      AddRefOutside(recs, recs[p].await.value, -1, i);
      Update(r1, p, r1[p].(await := None), i);
    } else {
      Update(recs, p, Started(recs, p)[p], i);
    }
  }

  lemma SuspendOutside(recs: seq<Rec>, p: nat, q: nat, gen: Option<nat>, i: nat)
    requires p < |recs| && q < |recs| && recs[p].await.None?
    ensures Outside(Suspend(recs, p, q, gen), i) == Outside(recs, i)
  {
    var r1 := recs[p := recs[p].(await := Some(q), gen := gen, refs := recs[p].refs + 1)];
    Update(recs, p, r1[p], i);
    Update(r1, q, r1[q].(handlers := r1[q].handlers + [p], refs := r1[q].refs + 1), i);
  }

  lemma WaitingOutside(s: State, p: nat, run: Run, i: nat)
    requires CanDrive(s, p) && run.Suspends? && run.q < |s.recs|
    ensures Outside(Waiting(s, p, run).recs, i) == Outside(s.recs, i)
  {
    StartedOutside(s.recs, p, i);
    SuspendOutside(Started(s.recs, p), p, run.q, run.gen, i);
  }

  lemma ClosedOutside(s: State, p: nat, run: Run, i: nat)
    requires CanDrive(s, p) && run.Settles?
    ensures Outside(Closed(s, p, run).recs, i) == Outside(s.recs, i) + multiset(s.recs[p].handlers)[i]
  {
    var recs := Started(s.recs, p);
    StartedOutside(s.recs, p, i);
    Update(recs, p, Settled(recs[p], run.v, run.kind), i);
  }

  lemma {:induction false} NobodyHolds(recs: seq<Rec>, i: nat)
    requires forall j | 0 <= j < |recs| :: recs[j].await != Some(i) && i !in recs[j].handlers
    ensures Sum(Holds(i), recs) == 0
  {
    if recs != [] { NobodyHolds(recs[..|recs| - 1], i); }
  }

  lemma BlankOutside(w: nat -> nat, s: State, t: nat, i: nat)
    requires Ok(w, s) && IsProto(s, t)
    ensures Outside(s.recs + [Blank(s.recs[t])], i) == Outside(s.recs, i) + Is(i == |s.recs|)
  {
    var recs := s.recs + [Blank(s.recs[t])];
    assert recs[..|s.recs|] == s.recs;
  }

  lemma {:induction false} CloneOutside(w: nat -> nat, s: State, t: nat, i: nat)
    requires Ok(w, s) && IsProto(s, t)
    ensures Outside(CloneF(w, s, t).recs, i) == Outside(s.recs, i) + Is(i == |s.recs|)
    decreases w(t), |s.recs[t].handlers| + 1
  {
    var s1 := s.(recs := s.recs + [Blank(s.recs[t])]);
    NewOk(w, s, t);
    BlankOutside(w, s, t, i);
    SlotsOutside(w, s1, t, |s.recs|, 0, i);
  }

  lemma {:induction false} SlotsOutside(w: nat -> nat, s: State, t: nat, c: nat, k: nat, i: nat)
    requires Cloneable(w, s, t, c, k)
    ensures Outside(CloneSlots(w, s, t, c, k).recs, i) == Outside(s.recs, i)
    decreases w(t), |s.recs[t].handlers| - k
  {
    var hs := s.recs[t].handlers;
    if k < |hs| {
      SlotLighter(w, s, t, k);
      if IsProto(s, hs[k]) {
        var s1 := CloneF(w, s, hs[k]);
        var s2 := s1.(recs := PushSlot(s1.recs, c, |s.recs|));
        NestedOk(w, s, t, c, k, s1, s2);
        CloneOutside(w, s, hs[k], i);
        PushOutside(s1.recs, c, |s.recs|, i);
        SlotsOutside(w, s2, t, c, k + 1, i);
      } else {
        var s2 := s.(recs := MoveSlot(s.recs, t, c, k));
        MoveOk(w, s, t, c, k, s2);
        MoveOutside(s.recs, t, c, k, i);
        SlotsOutside(w, s2, t, c, k, i);
      }
    }
  }

  /** Resolving takes and gives back every reference it uses. */
  lemma {:induction false} ResolveOutside(w: nat -> nat, s: State, p: nat, data: Value, sig: Signal, i: nat)
    requires CanResolve(w, s, p, data)
    ensures Outside(ResolveF(w, s, p, data, sig).recs, i) == Outside(s.recs, i)
    decreases Load(w, s.recs), 0
  {
    if !Finished(s.recs[p]) {
      OkDrives(w, s, p);
      var run := Drive(s, p, data, sig);
      if run.Suspends? {
        WaitingOutside(s, p, run, i);
      } else {
        SettleOk(w, s, p, run);
        ClosedOutside(s, p, run, i);
        DeliverOutside(w, Closed(s, p, run), s.recs[p].handlers, run.v, Settle(run.kind), i);
      }
    }
  }

  lemma {:induction false} OneOutside(w: nat -> nat, s: State, h: nat, v: Value, sig: Signal, i: nat)
    requires Ok(w, s) && !v.Prom? && h < |s.recs|
    ensures Outside(DeliverOne(w, s, h, v, sig).recs, i) == Outside(s.recs, i) - Is(i == h)
    decreases Load(w, s.recs) + w(h), 1
  {
    assert RecOk(w, s, h);
    if IsProto(s, h) {
      var s1 := CloneF(w, s, h);
      CloneOutside(w, s, h, i);
      RefOk(w, s1, h, -1);
      AddRefOutside(s1.recs, h, -1, i);
      var s2 := ResolveF(w, Drop(s1, h), |s.recs|, v, sig);
      ResolveOutside(w, Drop(s1, h), |s.recs|, v, sig, i);
      AddRefOutside(s2.recs, |s.recs|, -1, i);
    } else {
      ResolveOutside(w, s, h, v, sig, i);
      AddRefOutside(ResolveF(w, s, h, v, sig).recs, h, -1, i);
    }
  }

  /** The delivery loop gives up exactly the references of the slots it was handed. */
  lemma {:induction false} DeliverOutside(w: nat -> nat, s: State, hs: seq<nat>, v: Value, sig: Signal, i: nat)
    requires CanDeliver(w, s, hs, v)
    ensures Outside(DeliverF(w, s, hs, v, sig).recs, i) == Outside(s.recs, i) - multiset(hs)[i]
    decreases Load(w, s.recs) + SlotCost(hs, w), 2 + |hs|
  {
    if hs != [] {
      assert hs == [hs[0]] + hs[1..];
      OneOutside(w, s, hs[0], v, sig, i);
      DeliverOutside(w, DeliverOne(w, s, hs[0], v, sig), hs[1..], v, sig, i);
    }
  }
}
