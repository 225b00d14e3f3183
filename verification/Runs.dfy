/** Whole runs: what holds in every state a program can reach. */
module Runs {
  import opened Values
  import opened Engine
  import opened Cloning
  import opened Delivery
  import opened Graph
  import opened Permanence
  import opened References
  import opened Operations

  // ---- Weights of new and newly nested prototypes ---------------------------------------------

  function Scale(w: nat -> nat, n: nat): nat -> nat { (i: nat) => if i == n then 4 else 3 * w(i) }

  lemma {:induction false} ScaleCost(w: nat -> nat, n: nat, hs: seq<nat>)
    requires n !in hs
    ensures SlotCost(hs, Scale(w, n)) == 3 * SlotCost(hs, w)
  {
    if hs != [] { ScaleCost(w, n, hs[1..]); }
  }

  /** A fresh prototype without handlers fits under any others. */
  lemma NewProto(w: nat -> nat, s: State, r: Rec)
    requires Quiescent(w, s) && Idle(r) && r.flags.proto && !r.flags.isInternal
    ensures Quiescent(Scale(w, |s.recs|), Created(s, r))
    ensures forall i | 0 <= i < |s.recs| && IsProto(s, i) ::
              Scale(w, |s.recs|)(i) >= 6 + SlotCost(s.recs[i].handlers, Scale(w, |s.recs|))
  {
    var s1, w1 := Created(s, r), Scale(w, |s.recs|);
    forall i | 0 <= i < |s.recs|
      ensures RecOk(w1, s1, i) && (IsProto(s, i) ==> w1(i) >= 6 + SlotCost(s.recs[i].handlers, w1))
    {
      assert RecOk(w, s, i);
      ScaleCost(w, |s.recs|, s.recs[i].handlers);
    }
    forall i | 0 <= i < |s1.recs| ensures RecOk(w1, s1, i) && !Stuck(s1, i) {
      if i < |s.recs| { assert !Stuck(s, i) && RecOk(w, s, i); }
    }
  }

  lemma CreatedQuiescent(w: nat -> nat, s: State, r: Rec)
    requires Quiescent(w, s) && Idle(r) && !r.flags.proto
    ensures Quiescent(w, Created(s, r))
  {
    CreatedOk(w, s, r);
    var s1 := Created(s, r);
    forall i | 0 <= i < |s1.recs| ensures !Stuck(s1, i) {
      if i < |s.recs| { assert !Stuck(s, i) && RecOk(w, s, i); }
    }
  }

  lemma CreatedGood(w: nat -> nat, s: State, r: Rec)
    requires Quiescent(w, s) && Idle(r) && !(r.flags.proto && r.flags.isInternal)
    ensures Good(Created(s, r))
  {
    if r.flags.proto { NewProto(w, s, r); } else { CreatedQuiescent(w, s, r); }
  }

  /** Appending keeps the state good when `h` weighs nothing or `w` has room for it. */
  lemma AppendedQuiescent(w: nat -> nat, s: State, p: nat, h: nat)
    requires Quiescent(w, s) && p < |s.recs| && h < |s.recs| && !Finished(s.recs[p])
    requires IsProto(s, p) ==> w(p) >= 2 + SlotCost(s.recs[p].handlers, w) + w(h)
    ensures Quiescent(w, Appended(s, p, h))
  {
    var s1 := s.(recs := PushSlot(s.recs, p, h));
    SlotCostAppend(s.recs[p].handlers, h, w);
    forall i | 0 <= i < |s1.recs| ensures RecOk(w, s1, i) { assert RecOk(w, s, i); }
    RefOk(w, s1, h, 1);
    forall i | 0 <= i < |s1.recs| ensures !Stuck(Appended(s, p, h), i) { assert !Stuck(s, i); }
  }

  lemma ThenGood(w: nat -> nat, s: State, p: nat, done: Callback, fail: Callback)
    requires Quiescent(w, s) && p < |s.recs|
    ensures Good(ThenF(w, s, p, done, fail))
  {
    var r := Pending(done, fail, Callback.Unset, PlainFlags(IsProto(s, p)));
    var s1 := Created(s, r);
    assert RecOk(w, s, p);
    if Finished(s.recs[p]) {
      CreatedQuiescent(w, s, r);
      ResolveQuiescent(w, s1, |s.recs|, s.recs[p].result, Settle(OutcomeKind(s.recs[p])));
    } else if IsProto(s, p) {
      NewProto(w, s, r);
      AppendedQuiescent(Scale(w, |s.recs|), s1, p, |s.recs|);
    } else {
      CreatedQuiescent(w, s, r);
      AppendedQuiescent(w, s1, p, |s.recs|);
    }
  }

  lemma AppendGood(w: nat -> nat, s: State, p: nat, h: nat)
    requires Quiescent(w, s) && Legal(s, Append(p, h)) && p != h
    ensures Good(s.(recs := AddRef(Appended(s, p, h).recs, h, 1)))
  {
    var s1 := Appended(s, p, h);
    var s2 := s.(recs := AddRef(s1.recs, h, 1));
    assert RecOk(w, s, p) && RecOk(w, s, h);
    var w1: nat -> nat := w;
    if IsProto(s, p) && IsProto(s, h) {
      w1 :| Ok(w1, s1);
    } else {
      AppendedQuiescent(w, s, p, h);
    }
    RefOk(w1, s1, h, 1);
    forall i | 0 <= i < |s2.recs| ensures !Stuck(s2, i) { assert !Stuck(s, i); }
    assert Quiescent(w1, s2);
  }

  lemma FinishQuiescent(w: nat -> nat, s: State, p: nat, v: Value, sig: Signal)
    requires Quiescent(w, s) && p < |s.recs| && !v.Prom?
    ensures Quiescent(w, FinishF(w, s, p, v, sig))
  {
    if IsProto(s, p) {
      CloneStuck(w, s, p);
      ResolveQuiescent(w, CloneF(w, s, p), |s.recs|, v, sig);
    } else {
      ResolveQuiescent(w, s, p, v, sig);
    }
  }

  lemma SettleQuiescent(w: nat -> nat, s: State, p: nat, v: Value, sig: Signal)
    requires Quiescent(w, s) && p < |s.recs| && !v.Prom?
    ensures Quiescent(w, SettleF(w, s, p, v, sig))
  {
    FinishQuiescent(w, s, p, v, sig);
    var out := FinishF(w, s, p, v, sig);
    if IsProto(s, p) {
      RefOk(w, out, |s.recs|, -1);
      DropStuck(out, |s.recs|);
    }
  }

  // ---- Removal --------------------------------------------------------------------------------

  lemma {:induction false} FilterIn(hs: seq<nat>, drop: nat -> bool)
    ensures forall x :: x in Filter(hs, drop) <==> x in hs && !drop(x)
  {
    if hs != [] { FilterIn(hs[1..], drop); }
  }

  lemma {:induction false} FilterCount(hs: seq<nat>, drop: nat -> bool, i: nat)
    ensures multiset(Filter(hs, drop))[i] == if drop(i) then 0 else multiset(hs)[i]
  {
    if hs != [] {
      FilterCount(hs[1..], drop, i);
      assert hs == [hs[0]] + hs[1..];
    }
  }

  lemma {:induction false} FilterCost(hs: seq<nat>, drop: nat -> bool, w: nat -> nat)
    ensures SlotCost(Filter(hs, drop), w) <= SlotCost(hs, w)
  {
    if hs != [] {
      FilterCost(hs[1..], drop, w);
      var tail := Filter(hs[1..], drop);
      assert ([hs[0]] + tail)[1..] == tail && [] + tail == tail;
    }
  }

  lemma {:induction false} ReleasedSlots(w: nat -> nat, s: State, hs: seq<nat>, drop: nat -> bool, i: nat)
    requires forall j | 0 <= j < |hs| :: hs[j] < |s.recs|
    ensures forall j | 0 <= j < |s.recs| :: var r := ReleaseSlots(s.recs, hs, drop)[j]; r == s.recs[j].(refs := r.refs)
    ensures Outside(ReleaseSlots(s.recs, hs, drop), i)
         == Outside(s.recs, i) - if drop(i) then multiset(hs)[i] else 0
    decreases |hs|
  {
    if hs != [] {
      assert hs == [hs[0]] + hs[1..];
      var recs := if drop(hs[0]) then AddRef(s.recs, hs[0], -1) else s.recs;
      if drop(hs[0]) { AddRefOutside(s.recs, hs[0], -1, i); }
      ReleasedSlots(w, s.(recs := recs), hs[1..], drop, i);
    }
  }

  lemma RecountQuiescent(w: nat -> nat, s: State, recs: seq<Rec>)
    requires Quiescent(w, s) && |recs| == |s.recs|
    requires forall j | 0 <= j < |recs| :: recs[j] == s.recs[j].(refs := recs[j].refs)
    ensures Quiescent(w, s.(recs := recs))
  {
    var s1 := s.(recs := recs);
    forall i | 0 <= i < |recs| ensures RecOk(w, s1, i) && !Stuck(s1, i) { assert RecOk(w, s, i) && !Stuck(s, i); }
  }

  lemma FilterQuiescent(w: nat -> nat, s: State, p: nat, drop: nat -> bool)
    requires Quiescent(w, s) && p < |s.recs|
    requires forall x | 0 <= x < |s.recs| && drop(x) :: s.recs[x].await != Some(p)
    ensures Quiescent(w, s.(recs := s.recs[p := s.recs[p].(handlers := Filter(s.recs[p].handlers, drop))]))
  {
    var hs := s.recs[p].handlers;
    var out := s.(recs := s.recs[p := s.recs[p].(handlers := Filter(hs, drop))]);
    FilterIn(hs, drop);
    FilterCost(hs, drop, w);
    assert RecOk(w, s, p);
    assert forall j | 0 <= j < |Filter(hs, drop)| :: Filter(hs, drop)[j] in hs;
    hide Filter, SlotCost;
    forall i | 0 <= i < |out.recs| ensures RecOk(w, out, i) { assert RecOk(w, s, i); }
    forall i | 0 <= i < |out.recs| ensures !Stuck(out, i) { assert !Stuck(s, i); }
  }

  lemma RemoveQuiescent(w: nat -> nat, s: State, p: nat, drop: nat -> bool)
    requires Quiescent(w, s) && SlotsInRange(s.recs, p)
    requires forall x | 0 <= x < |s.recs| && drop(x) :: s.recs[x].await != Some(p)
    ensures Quiescent(w, RemoveWhere(s, p, drop))
  {
    ReleasedSlots(w, s, s.recs[p].handlers, drop, 0);
    var recs := ReleaseSlots(s.recs, s.recs[p].handlers, drop);
    RecountQuiescent(w, s, recs);
    FilterQuiescent(w, s.(recs := recs), p, drop);
    CleanQuiescent(w, s.(recs := recs[p := recs[p].(handlers := Filter(recs[p].handlers, drop))]), p);
  }

  lemma CleanQuiescent(w: nat -> nat, s: State, p: nat)
    requires Quiescent(w, s) && p < |s.recs|
    ensures Quiescent(w, TryClean(s, p))
  {
    var s1 := TryClean(s, p);
    forall i | 0 <= i < |s1.recs| ensures RecOk(w, s1, i) && !Stuck(s1, i) { assert RecOk(w, s, i) && !Stuck(s, i); }
  }

  lemma RemoveOutside(w: nat -> nat, s: State, p: nat, drop: nat -> bool, i: nat)
    requires SlotsInRange(s.recs, p)
    ensures Outside(RemoveWhere(s, p, drop).recs, i) == Outside(s.recs, i)
  {
    var hs := s.recs[p].handlers;
    ReleasedSlots(w, s, hs, drop, i);
    FilterCount(hs, drop, i);
    var recs := ReleaseSlots(s.recs, hs, drop);
    Update(recs, p, recs[p].(handlers := Filter(recs[p].handlers, drop)), i);
  }

  // ---- One step -------------------------------------------------------------------------------

  /** Every legal operation leads from a good state to a good state. */
  lemma StepGood(s: State, op: Op)
    requires Good(s) && Legal(s, op)
    ensures Good(Step(s, op))
  {
    var w := Weights(s);
    match op
    case New(done, fail, canceler, flags) => CreatedGood(w, s, Pending(done, fail, canceler, flags));
    case Then(p, done, fail) => ThenGood(w, s, p, done, fail);
    case Append(p, h) => if p != h { AppendGood(w, s, p, h); }
    case Forget(p, h) => assert RecOk(w, s, p); RemoveQuiescent(w, s, p, IsHandler(h));
    case ForgetNamed(p, name) => assert RecOk(w, s, p); RemoveQuiescent(w, s, p, HasName(s.recs, name));
    case SetName(p, name) => NameQuiescent(w, s, p, name);
    case Finish(p, kind, v) => SettleQuiescent(w, s, p, v, Settle(kind));
    case UserFinish(p, kind, v) => SettleQuiescent(w, s, p, v, Settle(kind));
    case Invoke(p, v) => FinishQuiescent(w, s, p, v, Settle(Done));
    case CancelWith(p, e) => CancelQuiescent(w, s, p, e);
    case Release(p) => RefOk(w, s, p, -1); DropStuck(s, p); assert Quiescent(w, Drop(s, p));
  }

  lemma NameQuiescent(w: nat -> nat, s: State, p: nat, name: string)
    requires Quiescent(w, s) && p < |s.recs|
    ensures Quiescent(w, s.(recs := s.recs[p := s.recs[p].(name := Some(name))]))
  {
    var s1 := s.(recs := s.recs[p := s.recs[p].(name := Some(name))]);
    forall i | 0 <= i < |s1.recs| ensures RecOk(w, s1, i) && !Stuck(s1, i) { assert RecOk(w, s, i) && !Stuck(s, i); }
  }

  lemma CancelQuiescent(w: nat -> nat, s: State, p: nat, e: int)
    requires Quiescent(w, s) && p < |s.recs| && !IsProto(s, p)
    ensures Ok(w, Canceling(s, p)) && Quiescent(w, ResolveF(w, Canceling(s, p), p, Error(e), Cancel))
  {
    CancelingOk(w, s, p);
    var s1 := Canceling(s, p);
    forall i | 0 <= i < |s1.recs| ensures !Stuck(s1, i) { assert !Stuck(s, i); }
    ResolveQuiescent(w, s1, p, Error(e), Cancel);
  }

  // ---- References and permanence, one step ----------------------------------------------------

  lemma CreatedOutside(s: State, r: Rec, i: nat)
    requires r.refs == 1 && r.handlers == [] && r.await.None?
    ensures Outside(Created(s, r).recs, i) == Outside(s.recs, i) + Is(i == |s.recs|)
  {
    assert Created(s, r).recs[..|s.recs|] == s.recs;
  }

  lemma AppendedOutside(s: State, p: nat, h: nat, i: nat)
    requires p < |s.recs| && h < |s.recs|
    ensures Outside(Appended(s, p, h).recs, i) == Outside(s.recs, i)
  {
    PushOutside(s.recs, p, h, i);
    AddRefOutside(PushSlot(s.recs, p, h), h, 1, i);
  }

  lemma FinishOutside(w: nat -> nat, s: State, p: nat, v: Value, sig: Signal, i: nat)
    requires Ok(w, s) && p < |s.recs| && !v.Prom?
    ensures Outside(FinishF(w, s, p, v, sig).recs, i) == Outside(s.recs, i) + Is(IsProto(s, p) && i == |s.recs|)
    ensures Outside(SettleF(w, s, p, v, sig).recs, i) == Outside(s.recs, i)
  {
    if IsProto(s, p) {
      CloneOutside(w, s, p, i);
      ResolveOutside(w, CloneF(w, s, p), |s.recs|, v, sig, i);
      AddRefOutside(FinishF(w, s, p, v, sig).recs, |s.recs|, -1, i);
    } else {
      ResolveOutside(w, s, p, v, sig, i);
    }
  }

  /** An operation changes the references held outside the graph by exactly what it hands over. */
  lemma StepOutside(s: State, op: Op, i: nat)
    requires Good(s) && Legal(s, op)
    ensures Outside(Step(s, op).recs, i) == Outside(s.recs, i) + Handed(s, op, i)
  {
    var w := Weights(s);
    match op
    case New(done, fail, canceler, flags) => CreatedOutside(s, Pending(done, fail, canceler, flags), i);
    case Then(p, done, fail) =>
      var r := Pending(done, fail, Callback.Unset, PlainFlags(IsProto(s, p)));
      CreatedOutside(s, r, i);
      if Finished(s.recs[p]) {
        assert RecOk(w, s, p);
        CreatedOk(w, s, r);
        ResolveOutside(w, Created(s, r), |s.recs|, s.recs[p].result, Settle(OutcomeKind(s.recs[p])), i);
      } else {
        AppendedOutside(Created(s, r), p, |s.recs|, i);
      }
    case Append(p, h) =>
      if p != h {
        AppendedOutside(s, p, h, i);
        AddRefOutside(Appended(s, p, h).recs, h, 1, i);
      }
    case Forget(p, h) => assert RecOk(w, s, p); RemoveOutside(w, s, p, IsHandler(h), i);
    case ForgetNamed(p, name) => assert RecOk(w, s, p); RemoveOutside(w, s, p, HasName(s.recs, name), i);
    case SetName(p, name) => Update(s.recs, p, s.recs[p].(name := Some(name)), i);
    case Finish(p, kind, v) => FinishOutside(w, s, p, v, Settle(kind), i);
    case UserFinish(p, kind, v) => FinishOutside(w, s, p, v, Settle(kind), i);
    case Invoke(p, v) => FinishOutside(w, s, p, v, Settle(Done), i);
    case CancelWith(p, e) =>
      if !Finished(s.recs[p]) {
        CancelingOk(w, s, p);
        Update(s.recs, p, Canceling(s, p).recs[p], i);
        ResolveOutside(w, Canceling(s, p), p, Error(e), Cancel, i);
      }
    case Release(p) => AddRefOutside(s.recs, p, -1, i);
  }

  /** A settled promise keeps everything but its count and its name; a prototype its flags and callbacks. */
  ghost predicate SameAt(s: State, s': State, i: nat)
    requires i < |s.recs| <= |s'.recs|
  {
    var r, r' := s.recs[i], s'.recs[i];
    && (Finished(r) ==> r' == r.(refs := r'.refs, name := r'.name))
    && (r.flags.proto ==> r'.flags == r.flags && r'.done == r.done && r'.fail == r.fail && r'.canceler == r.canceler)
  }

  lemma KeptSame(s: State, s': State, i: nat)
    requires Kept(s, s') && i < |s.recs|
    ensures SameAt(s, s', i)
  {
    assert KeptAt(s, s', i);
  }

  lemma FinishKept(w: nat -> nat, s: State, p: nat, v: Value, sig: Signal)
    requires Ok(w, s) && p < |s.recs| && !v.Prom?
    ensures Kept(s, FinishF(w, s, p, v, sig)) && Kept(s, SettleF(w, s, p, v, sig))
  {
    var out := FinishF(w, s, p, v, sig);
    if IsProto(s, p) {
      CloneKept(w, s, p);
      ResolveKept(w, CloneF(w, s, p), |s.recs|, v, sig);
      KeptTrans(s, CloneF(w, s, p), out);
      DropKept(w, out, |s.recs|);
      KeptTrans(s, out, Drop(out, |s.recs|));
    } else {
      ResolveKept(w, s, p, v, sig);
    }
  }

  lemma ThenSame(w: nat -> nat, s: State, p: nat, done: Callback, fail: Callback, i: nat)
    requires Ok(w, s) && p < |s.recs| && i < |s.recs|
    ensures |s.recs| <= |ThenF(w, s, p, done, fail).recs| && SameAt(s, ThenF(w, s, p, done, fail), i)
  {
    var r := Pending(done, fail, Callback.Unset, PlainFlags(IsProto(s, p)));
    assert RecOk(w, s, p);
    if Finished(s.recs[p]) {
      CreatedOk(w, s, r);
      ResolveKept(w, Created(s, r), |s.recs|, s.recs[p].result, Settle(OutcomeKind(s.recs[p])));
      KeptSame(Created(s, r), ThenF(w, s, p, done, fail), i);
    }
  }

  lemma RemoveSame(w: nat -> nat, s: State, p: nat, drop: nat -> bool, i: nat)
    requires Ok(w, s) && SlotsInRange(s.recs, p) && i < |s.recs|
    ensures |s.recs| <= |RemoveWhere(s, p, drop).recs| && SameAt(s, RemoveWhere(s, p, drop), i)
  {
    assert RecOk(w, s, i);
    ReleasedSlots(w, s, s.recs[p].handlers, drop, 0);
  }

  lemma CancelSame(w: nat -> nat, s: State, p: nat, e: int, i: nat)
    requires Ok(w, s) && p < |s.recs| && !IsProto(s, p) && !Finished(s.recs[p]) && i < |s.recs|
    ensures Ok(w, Canceling(s, p))
    ensures var s' := ResolveF(w, Canceling(s, p), p, Error(e), Cancel); |s.recs| <= |s'.recs| && SameAt(s, s', i)
  {
    CancelingOk(w, s, p);
    ResolveKept(w, Canceling(s, p), p, Error(e), Cancel);
    KeptSame(Canceling(s, p), ResolveF(w, Canceling(s, p), p, Error(e), Cancel), i);
  }

  /** Settlement is permanent, and prototypes are never altered. */
  lemma StepSame(s: State, op: Op, i: nat)
    requires Good(s) && Legal(s, op) && i < |s.recs|
    ensures |s.recs| <= |Step(s, op).recs| && SameAt(s, Step(s, op), i)
  {
    var w := Weights(s);
    match op
    case New(_, _, _, _) =>
    case Then(p, done, fail) => ThenSame(w, s, p, done, fail, i);
    case Append(p, h) =>
    case Forget(p, h) => assert RecOk(w, s, p); RemoveSame(w, s, p, IsHandler(h), i);
    case ForgetNamed(p, name) => assert RecOk(w, s, p); RemoveSame(w, s, p, HasName(s.recs, name), i);
    case SetName(p, name) =>
    case Finish(p, kind, v) => FinishKept(w, s, p, v, Settle(kind)); KeptSame(s, Step(s, op), i);
    case UserFinish(p, kind, v) =>
      FinishKept(w, s, p, v, Settle(kind));
      if UserMayFinish(s.recs[p]) { KeptSame(s, Step(s, op), i); }
    case Invoke(p, v) => FinishKept(w, s, p, v, Settle(Done)); KeptSame(s, Step(s, op), i);
    case CancelWith(p, e) => if !Finished(s.recs[p]) { CancelSame(w, s, p, e, i); }
    case Release(p) =>
  }

  // ---- Runs -----------------------------------------------------------------------------------

  /** `trace` is a run: a good state, and after each operation the state it leads to. */
  ghost predicate IsRun(trace: seq<State>, ops: seq<Op>) {
    && |trace| == |ops| + 1 && Good(trace[0])
    && forall k | 0 <= k < |ops| :: StepsTo(trace, ops, k)
  }

  ghost predicate StepsTo(trace: seq<State>, ops: seq<Op>, k: nat)
    requires k < |ops| < |trace|
  {
    Good(trace[k]) ==> Legal(trace[k], ops[k]) && trace[k + 1] == Step(trace[k], ops[k])
  }

  lemma {:induction false} RunGood(trace: seq<State>, ops: seq<Op>, k: nat)
    requires IsRun(trace, ops) && k <= |ops|
    ensures Good(trace[k])
  {
    if k > 0 {
      RunGood(trace, ops, k - 1);
      assert StepsTo(trace, ops, k - 1);
      StepGood(trace[k - 1], ops[k - 1]);
    }
  }

  lemma EmptyGood()
    ensures Good(State([], [], []))
  {
    assert Quiescent((i: nat) => 0, State([], [], []));
  }

  /** In every state of every run, a promise is settled, waiting or pending, and never two of these. */
  lemma Phases(trace: seq<State>, ops: seq<Op>, k: nat, i: nat)
    requires IsRun(trace, ops) && k <= |ops| && i < |trace[k].recs|
    ensures var r := trace[k].recs[i];
            if Finished(r) then
              r.flags.done != r.flags.failed && r.await.None? && r.gen.None? && r.handlers == [] && !r.flags.processing
            else if r.await.Some? then
              r.await.value < |trace[k].recs| && !Finished(trace[k].recs[r.await.value])
              && i in trace[k].recs[r.await.value].handlers
            else
              r.gen.None? && !r.flags.processing
  {
    RunGood(trace, ops, k);
    var w := Weights(trace[k]);
    assert RecOk(w, trace[k], i) && !Stuck(trace[k], i);
  }

  /** Once a promise is settled in a run, its result and its state never change again. */
  lemma {:induction false} SettledForever(trace: seq<State>, ops: seq<Op>, j: nat, k: nat, i: nat)
    requires IsRun(trace, ops) && j <= k <= |ops| && i < |trace[j].recs| && Finished(trace[j].recs[i])
    ensures i < |trace[k].recs|
    ensures var r, r' := trace[j].recs[i], trace[k].recs[i]; r' == r.(refs := r'.refs, name := r'.name)
    decreases k
  {
    if j < k {
      SettledForever(trace, ops, j, k - 1, i);
      RunGood(trace, ops, k - 1);
      assert StepsTo(trace, ops, k - 1);
      StepSame(trace[k - 1], ops[k - 1], i);
    }
  }

  /** The references to `i` handed to the program by the first `k` operations of a run. */
  ghost function Owned(trace: seq<State>, ops: seq<Op>, k: nat, i: nat): int
    requires k <= |ops| < |trace|
  {
    if k == 0 then 0 else Owned(trace, ops, k - 1, i) + Handed(trace[k - 1], ops[k - 1], i)
  }

  /** In every reachable state a count is the slots and await links that name the promise, plus the
      references the program was handed and has not released. */
  lemma {:induction false} CountsAreExact(trace: seq<State>, ops: seq<Op>, k: nat, i: nat)
    requires IsRun(trace, ops) && trace[0] == State([], [], []) && k <= |ops|
    ensures CountOf(trace[k].recs, i) == Sum(Holds(i), trace[k].recs) + Owned(trace, ops, k, i)
  {
    if k > 0 {
      CountsAreExact(trace, ops, k - 1, i);
      RunGood(trace, ops, k - 1);
      assert StepsTo(trace, ops, k - 1);
      StepOutside(trace[k - 1], ops[k - 1], i);
    }
  }
}
