/** The promise graph: who waits for whom, before and after a delivery. */
module Graph {
  import opened Values
  import opened Engine
  import opened Cloning
  import opened Delivery

  /** `x` waits for a promise that has already settled: nobody would ever wake it. */
  predicate Stuck(s: State, x: nat) {
    && x < |s.recs| && s.recs[x].await.Some?
    && s.recs[x].await.value < |s.recs| && Finished(s.recs[s.recs[x].await.value])
  }

  ghost predicate NoNewStuck(s: State, s': State) {
    forall x | 0 <= x < |s'.recs| && Stuck(s', x) :: Stuck(s, x)
  }

  /** Between two calls of the engine nobody is stuck. */
  ghost predicate Quiescent(w: nat -> nat, s: State) {
    Ok(w, s) && forall x | 0 <= x < |s.recs| :: !Stuck(s, x)
  }

  lemma StuckTrans(a: State, b: State, c: State)
    requires NoNewStuck(a, b) && NoNewStuck(b, c)
    ensures NoNewStuck(a, c)
  {
  }

  lemma MoveStuck(w: nat -> nat, s: State, t: nat, c: nat, k: nat)
    requires Cloneable(w, s, t, c, k) && k < |s.recs[t].handlers| && s.recs[t].handlers[k] < |s.recs|
    ensures NoNewStuck(s, s.(recs := MoveSlot(s.recs, t, c, k)))
  {
  }

  lemma PushStuck(s: State, c: nat, x: nat)
    requires c < |s.recs|
    ensures NoNewStuck(s, s.(recs := PushSlot(s.recs, c, x)))
  {
  }

  lemma DropStuck(s: State, x: nat)
    requires x < |s.recs|
    ensures NoNewStuck(s, Drop(s, x)) && NoNewStuck(Drop(s, x), s)
  {
  }

  lemma BlankStuck(w: nat -> nat, s: State, t: nat)
    requires Ok(w, s) && IsProto(s, t)
    ensures NoNewStuck(s, s.(recs := s.recs + [Blank(s.recs[t])]))
  {
    var s1 := s.(recs := s.recs + [Blank(s.recs[t])]);
    forall x | 0 <= x < |s1.recs| && Stuck(s1, x) ensures Stuck(s, x) { assert x < |s.recs| ==> RecOk(w, s, x); }
  }

  lemma {:induction false} CloneStuck(w: nat -> nat, s: State, t: nat)
    requires Ok(w, s) && IsProto(s, t)
    ensures NoNewStuck(s, CloneF(w, s, t))
    decreases w(t), |s.recs[t].handlers| + 1
  {
    var s1 := s.(recs := s.recs + [Blank(s.recs[t])]);
    NewOk(w, s, t);
    BlankStuck(w, s, t);
    SlotsStuck(w, s1, t, |s.recs|, 0);
    StuckTrans(s, s1, CloneSlots(w, s1, t, |s.recs|, 0));
  }

  lemma {:induction false} SlotsStuck(w: nat -> nat, s: State, t: nat, c: nat, k: nat)
    requires Cloneable(w, s, t, c, k)
    ensures NoNewStuck(s, CloneSlots(w, s, t, c, k))
    decreases w(t), |s.recs[t].handlers| - k
  {
    var hs := s.recs[t].handlers;
    if k < |hs| {
      SlotLighter(w, s, t, k);
      if IsProto(s, hs[k]) {
        var s1 := CloneF(w, s, hs[k]);
        var s2 := s1.(recs := PushSlot(s1.recs, c, |s.recs|));
        NestedOk(w, s, t, c, k, s1, s2);
        CloneStuck(w, s, hs[k]);
        PushStuck(s1, c, |s.recs|);
        SlotsStuck(w, s2, t, c, k + 1);
        StuckTrans(s, s1, s2);
        StuckTrans(s, s2, CloneSlots(w, s2, t, c, k + 1));
      } else {
        var s2 := s.(recs := MoveSlot(s.recs, t, c, k));
        MoveOk(w, s, t, c, k, s2);
        MoveStuck(w, s, t, c, k);
        SlotsStuck(w, s2, t, c, k);
        StuckTrans(s, s2, CloneSlots(w, s2, t, c, k));
      }
    }
  }

  lemma WaitingStuck(w: nat -> nat, s: State, p: nat, run: Run)
    requires Ok(w, s) && p < |s.recs| && CanDrive(s, p) && !Finished(s.recs[p])
    requires run.Suspends? && RunOk(s.recs, |s.gens|, run)
    ensures NoNewStuck(s, Waiting(s, p, run)) && !Stuck(Waiting(s, p, run), p)
  {
  }

  /** Settling `p` leaves stuck exactly its own waiters, and they are all among its handlers. */
  lemma ClosedStuck(w: nat -> nat, s: State, p: nat, run: Run)
    requires Ok(w, s) && p < |s.recs| && CanDrive(s, p) && run.Settles? && !Finished(s.recs[p])
    ensures var s' := Closed(s, p, run);
            forall x | 0 <= x < |s'.recs| && Stuck(s', x) :: Stuck(s, x) || (x in s.recs[p].handlers && !IsProto(s', x))
    ensures !Stuck(Closed(s, p, run), p)
  {
    var s' := Closed(s, p, run);
    forall x | 0 <= x < |s'.recs| && Stuck(s', x)
      ensures Stuck(s, x) || (x in s.recs[p].handlers && !IsProto(s', x))
    {
      assert RecOk(w, s, x);
    }
  }

  lemma {:induction false} ResolveStuck(w: nat -> nat, s: State, p: nat, data: Value, sig: Signal)
    requires CanResolve(w, s, p, data)
    ensures NoNewStuck(s, ResolveF(w, s, p, data, sig)) && !Stuck(ResolveF(w, s, p, data, sig), p)
    decreases Load(w, s.recs), 0
  {
    if Finished(s.recs[p]) {
      assert RecOk(w, s, p);
    } else {
      OkDrives(w, s, p);
      var run := Drive(s, p, data, sig);
      if run.Suspends? {
        WaitingStuck(w, s, p, run);
      } else {
        SettleOk(w, s, p, run);
        ClosedStuck(w, s, p, run);
        DeliverStuck(w, Closed(s, p, run), s.recs[p].handlers, run.v, Settle(run.kind));
      }
    }
  }

  lemma {:induction false} OneStuck(w: nat -> nat, s: State, h: nat, v: Value, sig: Signal)
    requires Ok(w, s) && !v.Prom? && h < |s.recs|
    ensures NoNewStuck(s, DeliverOne(w, s, h, v, sig)) && !Stuck(DeliverOne(w, s, h, v, sig), h)
    decreases Load(w, s.recs) + w(h), 1
  {
    assert RecOk(w, s, h);
    if IsProto(s, h) {
      var s1 := CloneF(w, s, h);
      CloneStuck(w, s, h);
      RefOk(w, s1, h, -1);
      DropStuck(s1, h);
      var s2 := ResolveF(w, Drop(s1, h), |s.recs|, v, sig);
      ResolveStuck(w, Drop(s1, h), |s.recs|, v, sig);
      DropStuck(s2, |s.recs|);
    } else {
      ResolveStuck(w, s, h, v, sig);
      DropStuck(ResolveF(w, s, h, v, sig), h);
    }
  }

  lemma {:induction false} DeliverStuck(w: nat -> nat, s: State, hs: seq<nat>, v: Value, sig: Signal)
    requires CanDeliver(w, s, hs, v)
    ensures NoNewStuck(s, DeliverF(w, s, hs, v, sig))
    ensures forall x | x in hs :: !Stuck(DeliverF(w, s, hs, v, sig), x)
    decreases Load(w, s.recs) + SlotCost(hs, w), 2 + |hs|
  {
    if hs != [] {
      OneStuck(w, s, hs[0], v, sig);
      DeliverStuck(w, DeliverOne(w, s, hs[0], v, sig), hs[1..], v, sig);
    }
  }

  /** Whoever is resolved, nobody ends up waiting for a settled promise. */
  lemma ResolveQuiescent(w: nat -> nat, s: State, p: nat, data: Value, sig: Signal)
    requires CanResolve(w, s, p, data) && Quiescent(w, s)
    ensures Quiescent(w, ResolveF(w, s, p, data, sig))
  {
    ResolveStuck(w, s, p, data, sig);
  }
}
