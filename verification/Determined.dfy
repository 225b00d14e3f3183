/** Weights witness that cloning and delivery end; they have no say in what these do, so that resolving a
    promise is a function of the state alone. */
module Determined {
  import opened Values
  import opened Engine
  import opened Cloning
  import opened Delivery

  lemma {:induction false} CloneSame(w: nat -> nat, w': nat -> nat, s: State, t: nat)
    requires Ok(w, s) && Ok(w', s) && IsProto(s, t)
    ensures CloneF(w, s, t) == CloneF(w', s, t)
    decreases w(t), |s.recs[t].handlers| + 1
  {
    CloneUnfolds(w, s, t);
    CloneUnfolds(w', s, t);
    SlotsSame(w, w', s.(recs := s.recs + [Blank(s.recs[t])]), t, |s.recs|, 0);
  }

  lemma {:induction false} SlotsSame(w: nat -> nat, w': nat -> nat, s: State, t: nat, c: nat, k: nat)
    requires Cloneable(w, s, t, c, k) && Cloneable(w', s, t, c, k)
    ensures CloneSlots(w, s, t, c, k) == CloneSlots(w', s, t, c, k)
    decreases w(t), |s.recs[t].handlers| - k
  {
    var hs := s.recs[t].handlers;
    hide Ok, MoveSlot;
    if k < |hs| {
      SlotLighter(w, s, t, k);
      SlotLighter(w', s, t, k);
      if IsProto(s, hs[k]) {
        CloneSame(w, w', s, hs[k]);
        var s1 := CloneF(w, s, hs[k]);
        var s2 := s1.(recs := PushSlot(s1.recs, c, |s.recs|));
        NestedOk(w, s, t, c, k, s1, s2);
        NestedOk(w', s, t, c, k, s1, s2);
        SlotsSame(w, w', s2, t, c, k + 1);
      } else {
        var s2 := s.(recs := MoveSlot(s.recs, t, c, k));
        MoveOk(w, s, t, c, k, s2);
        MoveOk(w', s, t, c, k, s2);
        SlotsSame(w, w', s2, t, c, k);
      }
    }
  }

  /** Resolving is a function of the state alone. */
  lemma {:induction false} ResolveSame(w: nat -> nat, w': nat -> nat, s: State, p: nat, data: Value, sig: Signal)
    requires CanResolve(w, s, p, data) && CanResolve(w', s, p, data)
    ensures ResolveF(w, s, p, data, sig) == ResolveF(w', s, p, data, sig)
    decreases Load(w, s.recs), 0
  {
    hide Ok, ResolveF, Drive, Load;
    if Finished(s.recs[p]) {
      ResolveStops(w, s, p, data, sig);
      ResolveStops(w', s, p, data, sig);
    } else {
      ResolveUnfolds(w, s, p, data, sig);
      ResolveUnfolds(w', s, p, data, sig);
      var run := Drive(s, p, data, sig);
      if run.Settles? {
        DeliverSame(w, w', Closed(s, p, run), s.recs[p].handlers, run.v, Settle(run.kind));
      }
    }
  }

  lemma {:induction false} OneSame(w: nat -> nat, w': nat -> nat, s: State, h: nat, v: Value, sig: Signal)
    requires Ok(w, s) && Ok(w', s) && !v.Prom? && h < |s.recs|
    ensures DeliverOne(w, s, h, v, sig) == DeliverOne(w', s, h, v, sig)
    decreases Load(w, s.recs) + w(h), 1
  {
    OneUnfolds(w, s, h, v, sig);
    OneUnfolds(w', s, h, v, sig);
    hide Ok, ResolveF, DeliverOne, CloneF, Load;
    if IsProto(s, h) {
      CloneSame(w, w', s, h);
      ResolveSame(w, w', Drop(CloneF(w, s, h), h), |s.recs|, v, sig);
    } else {
      ResolveSame(w, w', s, h, v, sig);
    }
  }

  lemma {:induction false} DeliverSame(w: nat -> nat, w': nat -> nat, s: State, hs: seq<nat>, v: Value, sig: Signal)
    requires CanDeliver(w, s, hs, v) && CanDeliver(w', s, hs, v)
    ensures DeliverF(w, s, hs, v, sig) == DeliverF(w', s, hs, v, sig)
    decreases Load(w, s.recs) + SlotCost(hs, w), 2 + |hs|
  {
    if hs != [] {
      DeliverUnfolds(w, s, hs, v, sig);
      DeliverUnfolds(w', s, hs, v, sig);
      hide DeliverOne, Load;
      OneSame(w, w', s, hs[0], v, sig);
      DeliverSame(w, w', DeliverOne(w, s, hs[0], v, sig), hs[1..], v, sig);
    }
  }
}
