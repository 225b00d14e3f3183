/** What no delivery ever changes: settled promises, and the chains of prototypes with their callbacks
    and flags. */
module Permanence {
  import opened Values
  import opened Engine
  import opened Cloning
  import opened Delivery

  /** The prototypes among some handlers, in order. */
  function ProtoSlots(s: State, hs: seq<nat>): seq<nat> {
    if hs == [] then [] else (if IsProto(s, hs[0]) then [hs[0]] else []) + ProtoSlots(s, hs[1..])
  }

  /** A settled promise keeps everything but its count; a prototype its callbacks, its flags and,
      in order, its prototype handlers. */
  ghost predicate KeptAt(s: State, s': State, i: nat)
    requires i < |s.recs| <= |s'.recs|
  {
    var r, r' := s.recs[i], s'.recs[i];
    && r'.name == r.name && r'.flags.proto == r.flags.proto && r'.flags.isInternal == r.flags.isInternal
    && r'.flags.autoclean == r.flags.autoclean && r'.flags.canceled == r.flags.canceled
    && (Finished(r) ==> r' == r.(refs := r'.refs))
    && (r.flags.proto ==> r' == r.(refs := r'.refs, handlers := r'.handlers)
                          && ProtoSlots(s', r'.handlers) == ProtoSlots(s, r.handlers))
  }

  ghost predicate Kept(s: State, s': State) {
    |s.recs| <= |s'.recs| && forall i | 0 <= i < |s.recs| :: KeptAt(s, s', i)
  }

  lemma KeptTrans(a: State, b: State, c: State)
    requires Kept(a, b) && Kept(b, c)
    ensures Kept(a, c)
  {
    forall i | 0 <= i < |a.recs| ensures KeptAt(a, c, i) { assert KeptAt(a, b, i) && KeptAt(b, c, i); }
  }

  lemma SelfKept(s: State)
    ensures Kept(s, s)
  {
    forall i | 0 <= i < |s.recs| ensures KeptAt(s, s, i) { }
  }

  lemma {:induction false} ProtoSlotsSame(s: State, s': State, hs: seq<nat>)
    requires forall j | 0 <= j < |hs| :: IsProto(s, hs[j]) == IsProto(s', hs[j])
    ensures ProtoSlots(s, hs) == ProtoSlots(s', hs)
  {
    if hs != [] {
      assert IsProto(s, hs[0]) == IsProto(s', hs[0]);
      ProtoSlotsSame(s, s', hs[1..]);
    }
  }

  lemma {:induction false} ProtoSlotsAppend(s: State, hs: seq<nat>, x: nat)
    ensures ProtoSlots(s, hs + [x]) == ProtoSlots(s, hs) + if IsProto(s, x) then [x] else []
  {
    if hs != [] {
      assert (hs + [x])[1..] == hs[1..] + [x];
      ProtoSlotsAppend(s, hs[1..], x);
    }
  }

  lemma {:induction false} ProtoSlotsRemove(s: State, hs: seq<nat>, k: nat)
    requires k < |hs| && !IsProto(s, hs[k])
    ensures ProtoSlots(s, hs[..k] + hs[k + 1..]) == ProtoSlots(s, hs)
  {
    if k == 0 {
      assert hs[..0] + hs[1..] == hs[1..];
    } else {
      ProtoSlotsRemove(s, hs[1..], k - 1);
      assert (hs[..k] + hs[k + 1..])[1..] == hs[1..][..k - 1] + hs[1..][k..];
    }
  }

  /** Prototypes with the same handlers keep their prototype handlers. */
  lemma SameSlots(w: nat -> nat, s: State, s': State, i: nat)
    requires Ok(w, s) && i < |s.recs| <= |s'.recs| && s'.recs[i].handlers == s.recs[i].handlers
    requires forall j | 0 <= j < |s.recs| :: s'.recs[j].flags.proto == s.recs[j].flags.proto
    ensures ProtoSlots(s', s'.recs[i].handlers) == ProtoSlots(s, s.recs[i].handlers)
  {
    assert RecOk(w, s, i);
    ProtoSlotsSame(s, s', s.recs[i].handlers);
  }

  lemma DropKept(w: nat -> nat, s: State, x: nat)
    requires Ok(w, s) && x < |s.recs|
    ensures Kept(s, Drop(s, x))
  {
    forall i | 0 <= i < |s.recs| ensures KeptAt(s, Drop(s, x), i) { SameSlots(w, s, Drop(s, x), i); }
  }

  lemma ClosedKept(w: nat -> nat, s: State, p: nat, run: Run)
    requires Ok(w, s) && p < |s.recs| && CanDrive(s, p) && run.Settles?
    requires !Finished(s.recs[p]) && !s.recs[p].flags.proto
    ensures Kept(s, Closed(s, p, run))
  {
    var s' := Closed(s, p, run);
    forall i | 0 <= i < |s.recs| ensures KeptAt(s, s', i) {
      if i != p { SameSlots(w, s, s', i); }
    }
  }

  lemma WaitingKept(w: nat -> nat, s: State, p: nat, run: Run)
    requires Ok(w, s) && p < |s.recs| && CanDrive(s, p) && !Finished(s.recs[p]) && !s.recs[p].flags.proto
    requires run.Suspends? && RunOk(s.recs, |s.gens|, run)
    ensures Kept(s, Waiting(s, p, run))
  {
    var s', q := Waiting(s, p, run), run.q;
    forall i | 0 <= i < |s.recs| ensures s'.recs[i].flags.proto
      == s.recs[i].flags.proto { WaitingFields(s, p, run, i); }
    hide Ok, RecOk, Waiting;
    forall i | 0 <= i < |s.recs| ensures KeptAt(s, s', i) {
      WaitingFields(s, p, run, i);
      if i != q {
        SameSlots(w, s, s', i);
      } else {
        WaitedKept(w, s, s', p, q);
      }
    }
  }

  lemma WaitedKept(w: nat -> nat, s: State, s': State, p: nat, q: nat)
    requires Ok(w, s) && p < |s.recs| && q < |s.recs| <= |s'.recs| && !s.recs[p].flags.proto
    requires forall i | 0 <= i < |s.recs| :: s'.recs[i].flags.proto == s.recs[i].flags.proto
    requires s'.recs[q].handlers == s.recs[q].handlers + [p]
    ensures ProtoSlots(s', s'.recs[q].handlers) == ProtoSlots(s, s.recs[q].handlers)
  {
    assert RecOk(w, s, q);
    ProtoSlotsAppend(s, s.recs[q].handlers, p);
    ProtoSlotsSame(s, s', s.recs[q].handlers + [p]);
  }

  lemma BlankKept(w: nat -> nat, s: State, t: nat)
    requires Ok(w, s) && IsProto(s, t)
    ensures Kept(s, s.(recs := s.recs + [Blank(s.recs[t])]))
  {
    var s' := s.(recs := s.recs + [Blank(s.recs[t])]);
    forall i | 0 <= i < |s.recs| ensures KeptAt(s, s', i) { SameSlots(w, s, s', i); }
  }

  lemma PushKept(w: nat -> nat, s: State, c: nat, x: nat)
    requires Ok(w, s) && c < |s.recs| && !s.recs[c].flags.proto && !Finished(s.recs[c])
    ensures Kept(s, s.(recs := PushSlot(s.recs, c, x)))
  {
    var s' := s.(recs := PushSlot(s.recs, c, x));
    forall i | 0 <= i < |s.recs| ensures KeptAt(s, s', i) {
      if i != c { SameSlots(w, s, s', i); }
    }
  }

  lemma MoveKept(w: nat -> nat, s: State, t: nat, c: nat, k: nat)
    requires Cloneable(w, s, t, c, k) && k < |s.recs[t].handlers| && !IsProto(s, s.recs[t].handlers[k])
    requires s.recs[t].handlers[k] < |s.recs|
    ensures Kept(s, s.(recs := MoveSlot(s.recs, t, c, k)))
  {
    var s' := s.(recs := MoveSlot(s.recs, t, c, k));
    var x := s.recs[t].handlers[k];
    assert RecOk(w, s, x) && RecOk(w, s, t);
    hide Ok, RecOk;
    forall i | 0 <= i < |s.recs| ensures KeptAt(s, s', i) {
      MovedFields(s, t, c, k, i);
      if i == t {
        MovedProtos(s, s', t, c, k);
      } else if i != c {
        MovedSlots(s, s', t, c, k);
        SameSlots(w, s, s', i);
      }
    }
  }

  lemma MovedSlots(s: State, s': State, t: nat, c: nat, k: nat)
    requires t < |s.recs| && c < |s.recs| && c != t && k < |s.recs[t].handlers| && s.recs[t].handlers[k] < |s.recs|
    requires s' == s.(recs := MoveSlot(s.recs, t, c, k))
    ensures |s'.recs| == |s.recs| && forall j | 0 <= j < |s.recs| :: s'.recs[j].flags.proto == s.recs[j].flags.proto
  {
    forall j | 0 <= j < |s.recs| ensures s'.recs[j].flags.proto == s.recs[j].flags.proto { MovedFields(s, t, c, k, j); }
  }

  lemma MovedProtos(s: State, s': State, t: nat, c: nat, k: nat)
    requires t < |s.recs| && c < |s.recs| && c != t && k < |s.recs[t].handlers| && s.recs[t].handlers[k] < |s.recs|
    requires s' == s.(recs := MoveSlot(s.recs, t, c, k)) && !IsProto(s, s.recs[t].handlers[k])
    ensures ProtoSlots(s', s'.recs[t].handlers) == ProtoSlots(s, s.recs[t].handlers)
  {
    var hs := s.recs[t].handlers;
    MovedFields(s, t, c, k, t);
    MovedSlots(s, s', t, c, k);
    ProtoSlotsRemove(s, hs, k);
    ProtoSlotsSame(s, s', hs[..k] + hs[k + 1..]);
  }

  lemma {:induction false} CloneKept(w: nat -> nat, s: State, t: nat)
    requires Ok(w, s) && IsProto(s, t)
    ensures Kept(s, CloneF(w, s, t))
    decreases w(t), |s.recs[t].handlers| + 1
  {
    var s1 := s.(recs := s.recs + [Blank(s.recs[t])]);
    NewOk(w, s, t);
    BlankKept(w, s, t);
    SlotsKept(w, s1, t, |s.recs|, 0);
    var s2 := CloneSlots(w, s1, t, |s.recs|, 0);
    KeptTrans(s, s1, s2);
    var out := CloneF(w, s, t);
    forall i | 0 <= i < |s.recs| ensures KeptAt(s, out, i) {
      assert KeptAt(s, s2, i);
      ProtoSlotsSame(s2, out, s2.recs[i].handlers);
    }
  }

  lemma {:induction false} SlotsKept(w: nat -> nat, s: State, t: nat, c: nat, k: nat)
    requires Cloneable(w, s, t, c, k)
    ensures Kept(s, CloneSlots(w, s, t, c, k))
    decreases w(t), |s.recs[t].handlers| - k
  {
    var hs := s.recs[t].handlers;
    hide Ok, Kept, MoveSlot;
    if k == |hs| {
      SelfKept(s);
    } else {
      SlotLighter(w, s, t, k);
      if IsProto(s, hs[k]) {
        var s1 := CloneF(w, s, hs[k]);
        var s2 := s1.(recs := PushSlot(s1.recs, c, |s.recs|));
        NestedOk(w, s, t, c, k, s1, s2);
        CloneKept(w, s, hs[k]);
        assert FrameAt(w, s, s1, c, w(hs[k]), |s.recs|);
        PushKept(w, s1, c, |s.recs|);
        SlotsKept(w, s2, t, c, k + 1);
        KeptTrans(s, s1, s2);
        KeptTrans(s, s2, CloneSlots(w, s2, t, c, k + 1));
      } else {
        var s2 := s.(recs := MoveSlot(s.recs, t, c, k));
        MoveOk(w, s, t, c, k, s2);
        MoveKept(w, s, t, c, k);
        SlotsKept(w, s2, t, c, k);
        KeptTrans(s, s2, CloneSlots(w, s2, t, c, k));
      }
    }
  }

  lemma {:induction false} ResolveKept(w: nat -> nat, s: State, p: nat, data: Value, sig: Signal)
    requires CanResolve(w, s, p, data)
    ensures Kept(s, ResolveF(w, s, p, data, sig))
    decreases Load(w, s.recs), 0
  {
    if Finished(s.recs[p]) {
      SelfKept(s);
    } else {
      OkDrives(w, s, p);
      var run := Drive(s, p, data, sig);
      if run.Suspends? {
        WaitingKept(w, s, p, run);
      } else {
        SettleOk(w, s, p, run);
        ClosedKept(w, s, p, run);
        var s1 := Closed(s, p, run);
        DeliverKept(w, s1, s.recs[p].handlers, run.v, Settle(run.kind));
        KeptTrans(s, s1, DeliverF(w, s1, s.recs[p].handlers, run.v, Settle(run.kind)));
      }
    }
  }

  lemma {:induction false} OneKept(w: nat -> nat, s: State, h: nat, v: Value, sig: Signal)
    requires Ok(w, s) && !v.Prom? && h < |s.recs|
    ensures Kept(s, DeliverOne(w, s, h, v, sig))
    decreases Load(w, s.recs) + w(h), 1
  {
    assert RecOk(w, s, h);
    if IsProto(s, h) {
      var s1 := CloneF(w, s, h);
      CloneKept(w, s, h);
      RefOk(w, s1, h, -1);
      DropKept(w, s1, h);
      var s2 := ResolveF(w, Drop(s1, h), |s.recs|, v, sig);
      ResolveKept(w, Drop(s1, h), |s.recs|, v, sig);
      DropKept(w, s2, |s.recs|);
      KeptTrans(s, s1, Drop(s1, h));
      KeptTrans(s, Drop(s1, h), s2);
      KeptTrans(s, s2, Drop(s2, |s.recs|));
    } else {
      var s2 := ResolveF(w, s, h, v, sig);
      ResolveKept(w, s, h, v, sig);
      DropKept(w, s2, h);
      KeptTrans(s, s2, Drop(s2, h));
    }
  }

  lemma {:induction false} DeliverKept(w: nat -> nat, s: State, hs: seq<nat>, v: Value, sig: Signal)
    requires CanDeliver(w, s, hs, v)
    ensures Kept(s, DeliverF(w, s, hs, v, sig))
    decreases Load(w, s.recs) + SlotCost(hs, w), 2 + |hs|
  {
    if hs == [] {
      SelfKept(s);
    } else {
      var s1 := DeliverOne(w, s, hs[0], v, sig);
      OneKept(w, s, hs[0], v, sig);
      DeliverKept(w, s1, hs[1..], v, sig);
      KeptTrans(s, s1, DeliverF(w, s1, hs[1..], v, sig));
    }
  }
}
