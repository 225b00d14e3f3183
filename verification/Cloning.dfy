/** Cloning a prototype: nested prototypes are cloned, every other handler moves to the clone. */
module Cloning {
  import opened Values
  import opened Engine

  predicate IsProto(s: State, i: nat) { i < |s.recs| && s.recs[i].flags.proto }

  /** A new promise with the prototype's callbacks (the canceler stays behind) and one reference. */
  function Blank(r: Rec): Rec {
    Rec(r.flags.(proto := false), r.done, r.fail, Unset, None, None, Null, [], None, 1)
  }

  function PushSlot(recs: seq<Rec>, c: nat, x: nat): seq<Rec>
    requires c < |recs|
  {
    recs[c := recs[c].(handlers := recs[c].handlers + [x])]
  }

  /** An await link on `t` becomes one on `c`, with its reference. */
  function Relink(recs: seq<Rec>, x: nat, t: nat, c: nat): seq<Rec>
    requires x < |recs| && t < |recs| && c < |recs|
  {
    if recs[x].await == Some(t) then
      AddRef(AddRef(recs[x := recs[x].(await := Some(c))], c, 1), t, -1)
    else recs
  }

  function DropSlot(recs: seq<Rec>, t: nat, k: nat): seq<Rec>
    requires t < |recs| && k < |recs[t].handlers|
  {
    recs[t := recs[t].(handlers := recs[t].handlers[..k] + recs[t].handlers[k + 1..])]
  }

  /** An external handler leaves slot `k` of `t` for `c`, and its await link follows it. */
  function MoveSlot(recs: seq<Rec>, t: nat, c: nat, k: nat): seq<Rec>
    requires t < |recs| && c < |recs| && c != t && k < |recs[t].handlers| && recs[t].handlers[k] < |recs|
  {
    var x := recs[t].handlers[k];
    DropSlot(Relink(PushSlot(recs, c, x), x, t, c), t, k)
  }

  /** The autoclean hook of a container that has just lost its last handler. */
  function TryClean(s: State, t: nat): State
    requires t < |s.recs|
  {
    var r := s.recs[t];
    if r.flags.autoclean && r.handlers == [] && !r.canceler.Unset? then s.(log := s.log + [Cleaned(t)]) else s
  }

  lemma {:induction false} SlotCostSplit(hs: seq<nat>, k: nat, w: nat -> nat)
    requires k < |hs|
    ensures SlotCost(hs[k..], w) == w(hs[k]) + SlotCost(hs[k + 1..], w)
    ensures SlotCost(hs, w) == w(hs[k]) + SlotCost(hs[..k] + hs[k + 1..], w)
    ensures SlotCost(hs[k..], w) <= SlotCost(hs, w)
  {
    assert hs[k..][1..] == hs[k + 1..];
    if k == 0 {
      assert hs[..0] + hs[1..] == hs[1..];
    } else {
      SlotCostSplit(hs[1..], k - 1, w);
      assert hs[1..][k - 1..] == hs[k..];
      assert (hs[..k] + hs[k + 1..])[1..] == hs[1..][..k - 1] + hs[1..][k..];
    }
  }

  /** What cloning leaves alone: prototypes heavier than `b`, and everything but the slots of
      prototypes and of `c`, the await links, and the reference counts. */
  ghost predicate Frame(w: nat -> nat, s: State, s': State, b: nat, c: nat) {
    && |s.recs| <= |s'.recs| && s'.gens == s.gens && |s.log| <= |s'.log|
    && forall i | 0 <= i < |s.recs| :: FrameAt(w, s, s', i, b, c)
  }

  ghost predicate FrameAt(w: nat -> nat, s: State, s': State, i: nat, b: nat, c: nat)
    requires i < |s.recs| <= |s'.recs|
  {
    var r, r' := s.recs[i], s'.recs[i];
    && r' == r.(await := r'.await, refs := r'.refs, handlers := r'.handlers)
    && (r.await.None? <==> r'.await.None?)
    && (w(i) > b ==> r' == r)
    && (!r.flags.proto && i != c ==> r'.handlers == r.handlers)
  }

  ghost predicate Cloneable(w: nat -> nat, s: State, t: nat, c: nat, k: nat) {
    && Ok(w, s) && IsProto(s, t) && k <= |s.recs[t].handlers|
    && c < |s.recs| && !s.recs[c].flags.proto && !Finished(s.recs[c]) && c !in s.recs[t].handlers
  }

  /** `out` is `s` with the slots of `t` from `k` on copied or moved to `c`. */
  ghost predicate SlotsCloned(w: nat -> nat, s: State, t: nat, c: nat, k: nat, out: State)
    requires IsProto(s, t) && k <= |s.recs[t].handlers|
  {
    && Ok(w, out) && Frame(w, s, out, w(t), c)
    && Load(w, out.recs) <= Load(w, s.recs) + SlotCost(s.recs[t].handlers[k..], w)
  }

  ghost predicate ProtoCloned(w: nat -> nat, s: State, t: nat, out: State) {
    && Ok(w, out) && Frame(w, s, out, w(t), |s.recs|) && |out.recs| > |s.recs|
    && Load(w, out.recs) < Load(w, s.recs) + w(t)
    && var r := out.recs[|s.recs|]; !Finished(r) && !r.flags.proto && r.await.None?
  }

  ghost function CloneF(w: nat -> nat, s: State, t: nat): (out: State)
    requires Ok(w, s) && IsProto(s, t)
    ensures ProtoCloned(w, s, t, out)
    decreases w(t), |s.recs[t].handlers| + 1
  {
    var s1 := s.(recs := s.recs + [Blank(s.recs[t])]);
    NewOk(w, s, t);
    var s2 := CloneSlots(w, s1, t, |s.recs|, 0);
    var out := if s.recs[t].handlers == [] then s2 else TryClean(s2, t);
    CloneDone(w, s, t, s2, out);
    out
  }

  ghost function CloneSlots(w: nat -> nat, s: State, t: nat, c: nat, k: nat): (out: State)
    requires Cloneable(w, s, t, c, k)
    ensures SlotsCloned(w, s, t, c, k, out)
    decreases w(t), |s.recs[t].handlers| - k
  {
    var hs := s.recs[t].handlers;
    if k == |hs| then s
    else
      SlotLighter(w, s, t, k);
      if IsProto(s, hs[k]) then
        var s1 := CloneF(w, s, hs[k]);
        var s2 := s1.(recs := PushSlot(s1.recs, c, |s.recs|));
        NestedOk(w, s, t, c, k, s1, s2);
        var out := CloneSlots(w, s2, t, c, k + 1);
        NestedDone(w, s, t, c, k, s2, out);
        out
      else
        var s2 := s.(recs := MoveSlot(s.recs, t, c, k));
        MoveOk(w, s, t, c, k, s2);
        var out := CloneSlots(w, s2, t, c, k);
        MovedDone(w, s, t, c, k, s2, out);
        out
  }

  lemma SlotLighter(w: nat -> nat, s: State, t: nat, k: nat)
    requires Ok(w, s) && IsProto(s, t) && k < |s.recs[t].handlers|
    ensures s.recs[t].handlers[k] < |s.recs| && w(s.recs[t].handlers[k]) < w(t)
  {
    assert RecOk(w, s, t);
    SlotCostSplit(s.recs[t].handlers, k, w);
  }

  lemma NewOk(w: nat -> nat, s: State, t: nat)
    requires Ok(w, s) && IsProto(s, t)
    ensures var s1 := s.(recs := s.recs + [Blank(s.recs[t])]);
            Cloneable(w, s1, t, |s.recs|, 0) && Load(w, s1.recs) == Load(w, s.recs) + 1
  {
    var s1 := s.(recs := s.recs + [Blank(s.recs[t])]);
    assert s1.recs[..|s.recs|] == s.recs;
    forall i | 0 <= i < |s1.recs| ensures RecOk(w, s1, i) {
      assert i < |s.recs| ==> RecOk(w, s, i);
      assert RecOk(w, s, t);
    }
    assert RecOk(w, s, t);
  }

  lemma CloneDone(w: nat -> nat, s: State, t: nat, s2: State, out: State)
    requires Ok(w, s) && IsProto(s, t)
    requires var s1 := s.(recs := s.recs + [Blank(s.recs[t])]);
             Load(w, s1.recs) == Load(w, s.recs) + 1 && SlotsCloned(w, s1, t, |s.recs|, 0, s2)
    requires out == s2 || out == TryClean(s2, t)
    ensures ProtoCloned(w, s, t, out)
  {
    var s1 := s.(recs := s.recs + [Blank(s.recs[t])]);
    assert RecOk(w, s, t);
    assert s.recs[t].handlers[0..] == s.recs[t].handlers;
    forall i | 0 <= i < |s.recs| ensures FrameAt(w, s, out, i, w(t), |s.recs|) {
      assert FrameAt(w, s1, s2, i, w(t), |s.recs|);
    }
    assert FrameAt(w, s1, s2, |s.recs|, w(t), |s.recs|);
    forall i | 0 <= i < |out.recs| ensures RecOk(w, out, i) { assert RecOk(w, s2, i); }
  }

  lemma PushOk(w: nat -> nat, s: State, c: nat, x: nat)
    requires Ok(w, s) && c < |s.recs| && x < |s.recs|
    requires !Finished(s.recs[c]) && w(x) == 0
    ensures var s' := s.(recs := PushSlot(s.recs, c, x)); Ok(w, s') && Load(w, s'.recs) == Load(w, s.recs)
  {
    var s' := s.(recs := PushSlot(s.recs, c, x));
    SlotCostAppend(s.recs[c].handlers, x, w);
    SumUpdate(Cost(w), s.recs, c, s'.recs[c]);
    forall i | 0 <= i < |s'.recs| ensures RecOk(w, s', i) { assert RecOk(w, s, i); assert RecOk(w, s, c); }
  }

  /** Reference counts weigh nothing. */
  lemma RefOk(w: nat -> nat, s: State, i: nat, d: int)
    requires Ok(w, s) && i < |s.recs|
    ensures var s' := s.(recs := AddRef(s.recs, i, d)); Ok(w, s') && Load(w, s'.recs) == Load(w, s.recs)
  {
    var s' := s.(recs := AddRef(s.recs, i, d));
    SumUpdate(Cost(w), s.recs, i, s'.recs[i]);
    forall j | 0 <= j < |s'.recs| ensures RecOk(w, s', j) { assert RecOk(w, s, j); assert RecOk(w, s, i); }
  }

  lemma RelinkOk(w: nat -> nat, s: State, x: nat, t: nat, c: nat)
    requires Ok(w, s) && x < |s.recs| && t < |s.recs| && c < |s.recs|
    requires !Finished(s.recs[c]) && x in s.recs[c].handlers
    ensures var s' := s.(recs := Relink(s.recs, x, t, c)); Ok(w, s') && Load(w, s'.recs) == Load(w, s.recs)
  {
    if s.recs[x].await == Some(t) {
      var s1 := s.(recs := s.recs[x := s.recs[x].(await := Some(c))]);
      SumUpdate(Cost(w), s.recs, x, s1.recs[x]);
      forall i | 0 <= i < |s1.recs| ensures RecOk(w, s1, i) { assert RecOk(w, s, i); assert RecOk(w, s, x); }
      RefOk(w, s1, c, 1);
      RefOk(w, s1.(recs := AddRef(s1.recs, c, 1)), t, -1);
    }
  }

  lemma DropOk(w: nat -> nat, s: State, t: nat, k: nat)
    requires Ok(w, s) && IsProto(s, t) && k < |s.recs[t].handlers| && s.recs[t].handlers[k] < |s.recs|
    requires w(s.recs[t].handlers[k]) == 0 && s.recs[s.recs[t].handlers[k]].await != Some(t)
    ensures var s' := s.(recs := DropSlot(s.recs, t, k)); Ok(w, s') && Load(w, s'.recs) == Load(w, s.recs)
  {
    var s' := s.(recs := DropSlot(s.recs, t, k));
    var hs := s.recs[t].handlers;
    SlotCostSplit(hs, k, w);
    SumUpdate(Cost(w), s.recs, t, s'.recs[t]);
    WithoutSlot(hs, k);
    hide Load, SlotCost;
    forall i | 0 <= i < |s'.recs| ensures RecOk(w, s', i) { assert RecOk(w, s, i) && RecOk(w, s, t); }
  }

  lemma WithoutSlot(hs: seq<nat>, k: nat)
    requires k < |hs|
    ensures forall x | x in hs && x != hs[k] :: x in hs[..k] + hs[k + 1..]
    ensures forall x | x in hs[..k] + hs[k + 1..] :: x in hs
  {
    assert hs == hs[..k] + [hs[k]] + hs[k + 1..];
  }

  /** What moving slot `k` of `t` to `c` does to each record. */
  lemma MovedFields(s: State, t: nat, c: nat, k: nat, i: nat)
    requires t < |s.recs| && c < |s.recs| && c != t && k < |s.recs[t].handlers| && s.recs[t].handlers[k] < |s.recs|
    requires i < |s.recs|
    ensures var r, r' := s.recs[i], MoveSlot(s.recs, t, c, k)[i];
            && r' == r.(await := r'.await, refs := r'.refs, handlers := r'.handlers)
            && (i != s.recs[t].handlers[k] ==> r'.await == r.await)
            && (r.await.None? <==> r'.await.None?) && (i != t && i != c ==> r'.handlers == r.handlers)
            && (i != s.recs[t].handlers[k] && i != c && i != t ==> r' == r)
            && (i == t ==> r'.handlers == r.handlers[..k] + r.handlers[k + 1..])
  {
  }

  lemma MoveOk(w: nat -> nat, s: State, t: nat, c: nat, k: nat, s2: State)
    requires Cloneable(w, s, t, c, k) && k < |s.recs[t].handlers| && !IsProto(s, s.recs[t].handlers[k])
    requires s.recs[t].handlers[k] < |s.recs| && s2 == s.(recs := MoveSlot(s.recs, t, c, k))
    ensures Cloneable(w, s2, t, c, k) && Load(w, s2.recs) == Load(w, s.recs) && Frame(w, s, s2, w(t), c)
    ensures |s2.recs[t].handlers| == |s.recs[t].handlers| - 1
    ensures s2.recs[t].handlers[k..] == s.recs[t].handlers[k + 1..]
  {
    var x := s.recs[t].handlers[k];
    assert RecOk(w, s, t) && RecOk(w, s, c) && RecOk(w, s, x);
    PushOk(w, s, c, x);
    var s1 := s.(recs := PushSlot(s.recs, c, x));
    RelinkOk(w, s1, x, t, c);
    var s1' := s1.(recs := Relink(s1.recs, x, t, c));
    DropOk(w, s1', t, k);
    hide Ok, RecOk, Load;
    MovedFields(s, t, c, k, t);
    MovedFields(s, t, c, k, c);
    forall i | 0 <= i < |s.recs| ensures FrameAt(w, s, s2, i, w(t), c) { MovedFields(s, t, c, k, i); }
  }

  lemma NestedOk(w: nat -> nat, s: State, t: nat, c: nat, k: nat, s1: State, s2: State)
    requires Cloneable(w, s, t, c, k) && k < |s.recs[t].handlers| && IsProto(s, s.recs[t].handlers[k])
    requires ProtoCloned(w, s, s.recs[t].handlers[k], s1) && w(s.recs[t].handlers[k]) < w(t)
    requires s2 == s1.(recs := PushSlot(s1.recs, c, |s.recs|))
    ensures Cloneable(w, s2, t, c, k + 1) && s2.recs[t].handlers == s.recs[t].handlers
    ensures Load(w, s2.recs) < Load(w, s.recs) + w(s.recs[t].handlers[k]) && Frame(w, s, s2, w(t), c)
  {
    var x := s.recs[t].handlers[k];
    assert FrameAt(w, s, s1, t, w(x), |s.recs|);
    assert FrameAt(w, s, s1, c, w(x), |s.recs|);
    assert RecOk(w, s1, |s.recs|) && RecOk(w, s, c);
    PushOk(w, s1, c, |s.recs|);
    forall i | 0 <= i < |s.recs| ensures FrameAt(w, s, s2, i, w(t), c) {
      assert FrameAt(w, s, s1, i, w(x), |s.recs|);
    }
  }

  lemma FrameTrans(w: nat -> nat, s: State, s1: State, s2: State, b: nat, c: nat)
    requires Frame(w, s, s1, b, c) && Frame(w, s1, s2, b, c)
    ensures Frame(w, s, s2, b, c)
  {
    forall i | 0 <= i < |s.recs| ensures FrameAt(w, s, s2, i, b, c) {
      assert FrameAt(w, s, s1, i, b, c) && FrameAt(w, s1, s2, i, b, c);
    }
  }

  lemma NestedDone(w: nat -> nat, s: State, t: nat, c: nat, k: nat, s2: State, out: State)
    requires Cloneable(w, s, t, c, k) && k < |s.recs[t].handlers|
    requires IsProto(s2, t) && s2.recs[t].handlers == s.recs[t].handlers && Frame(w, s, s2, w(t), c)
    requires Load(w, s2.recs) < Load(w, s.recs) + w(s.recs[t].handlers[k])
    requires SlotsCloned(w, s2, t, c, k + 1, out)
    ensures SlotsCloned(w, s, t, c, k, out)
  {
    SlotCostSplit(s.recs[t].handlers, k, w);
    FrameTrans(w, s, s2, out, w(t), c);
  }

  lemma MovedDone(w: nat -> nat, s: State, t: nat, c: nat, k: nat, s2: State, out: State)
    requires Cloneable(w, s, t, c, k) && k < |s.recs[t].handlers|
    requires IsProto(s2, t) && k <= |s2.recs[t].handlers| && s2.recs[t].handlers[k..] == s.recs[t].handlers[k + 1..]
    requires Load(w, s2.recs) == Load(w, s.recs) && Frame(w, s, s2, w(t), c)
    requires SlotsCloned(w, s2, t, c, k, out)
    ensures SlotsCloned(w, s, t, c, k, out)
  {
    SlotCostSplit(s.recs[t].handlers, k, w);
    FrameTrans(w, s, s2, out, w(t), c);
  }

  lemma CloneUnfolds(w: nat -> nat, s: State, t: nat)
    requires Ok(w, s) && IsProto(s, t)
    ensures var s1 := s.(recs := s.recs + [Blank(s.recs[t])]);
            Cloneable(w, s1, t, |s.recs|, 0)
            && CloneF(w, s, t) ==
               if s.recs[t].handlers == [] then s1 else TryClean(CloneSlots(w, s1, t, |s.recs|, 0), t)
  {
    NewOk(w, s, t);
  }

  lemma NestedUnfolds(w: nat -> nat, s: State, t: nat, c: nat, k: nat, s2: State)
    requires Cloneable(w, s, t, c, k) && k < |s.recs[t].handlers| && IsProto(s, s.recs[t].handlers[k])
    requires var s1 := CloneF(w, s, s.recs[t].handlers[k]);
             c < |s1.recs| && s2 == s1.(recs := PushSlot(s1.recs, c, |s.recs|))
    ensures Cloneable(w, s2, t, c, k + 1) && s2.recs[t].handlers == s.recs[t].handlers
    ensures CloneSlots(w, s2, t, c, k + 1) == CloneSlots(w, s, t, c, k)
  {
    SlotLighter(w, s, t, k);
    NestedOk(w, s, t, c, k, CloneF(w, s, s.recs[t].handlers[k]), s2);
  }

  lemma MovedUnfolds(w: nat -> nat, s: State, t: nat, c: nat, k: nat, s2: State)
    requires Cloneable(w, s, t, c, k) && k < |s.recs[t].handlers| && !IsProto(s, s.recs[t].handlers[k])
    requires s.recs[t].handlers[k] < |s.recs| && s2 == s.(recs := MoveSlot(s.recs, t, c, k))
    ensures Cloneable(w, s2, t, c, k) && CloneSlots(w, s2, t, c, k) == CloneSlots(w, s, t, c, k)
  {
    MoveOk(w, s, t, c, k, s2);
  }

  lemma SlotsFacts(w: nat -> nat, s: State, t: nat, c: nat, k: nat)
    requires Cloneable(w, s, t, c, k) && k < |s.recs[t].handlers|
    ensures var x := s.recs[t].handlers[k];
            && x < |s.recs| && w(x) < w(t) && x != c && x != t && Ok(w, s)
            && (IsProto(s, x) ==> s.recs[x].await.None?)
  {
    SlotLighter(w, s, t, k);
    assert RecOk(w, s, s.recs[t].handlers[k]);
  }
}
