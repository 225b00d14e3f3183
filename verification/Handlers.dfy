/** A handler keeps its slot until its promise settles, and then it is served. */
module Handlers {
  import opened Values
  import opened Engine
  import opened Cloning
  import opened Delivery
  import opened Graph
  import opened Permanence
  import opened Operations
  import opened Runs
  import opened Firing

  // ---- Slots ----------------------------------------------------------------------------------

  /** The ordinary handler `x` of the ordinary promise `c` is in its slots as long as `c` is unsettled,
      and has fired when `c` has settled. */
  ghost predicate SlotKept(s: State, c: nat, x: nat) {
    && c < |s.recs| && x < |s.recs| && !s.recs[c].flags.proto && !s.recs[x].flags.proto
    && if Finished(s.recs[c]) then Fired(s.recs[x]) else x in s.recs[c].handlers
  }

  lemma KeptProto(s: State, s': State, i: nat)
    requires Kept(s, s') && i < |s.recs|
    ensures s'.recs[i].flags.proto == s.recs[i].flags.proto && (Finished(s.recs[i]) ==> Finished(s'.recs[i]))
  {
    assert KeptAt(s, s', i);
  }

  lemma ServedStays(s: State, s': State, c: nat, x: nat)
    requires SlotKept(s, c, x) && Finished(s.recs[c]) && Kept(s, s') && Advances(s, s')
    ensures SlotKept(s', c, x)
  {
    KeptProto(s, s', c);
    KeptProto(s, s', x);
  }

  /** Nothing has happened to the slots of `c`, or they have become more. */
  lemma SlotStill(s: State, s': State, c: nat, x: nat)
    requires SlotKept(s, c, x) && !Finished(s.recs[c]) && Kept(s, s') && !Finished(s'.recs[c])
    requires s.recs[c].handlers <= s'.recs[c].handlers
    ensures SlotKept(s', c, x)
  {
    KeptProto(s, s', c);
    KeptProto(s, s', x);
  }

  lemma CloneServes(w: nat -> nat, s: State, t: nat, c: nat, x: nat)
    requires Ok(w, s) && IsProto(s, t) && SlotKept(s, c, x)
    ensures SlotKept(CloneF(w, s, t), c, x)
  {
    CloneKept(w, s, t);
    if Finished(s.recs[c]) {
      CloneAdvances(w, s, t);
      ServedStays(s, CloneF(w, s, t), c, x);
    } else {
      assert FrameAt(w, s, CloneF(w, s, t), c, w(t), |s.recs|);
      SlotStill(s, CloneF(w, s, t), c, x);
    }
  }

  lemma DropServes(w: nat -> nat, s: State, i: nat, c: nat, x: nat)
    requires i < |s.recs| && SlotKept(s, c, x)
    ensures SlotKept(Drop(s, i), c, x)
  {
  }

  /** Settling `c` itself delivers to all its handlers. */
  lemma OwnServes(w: nat -> nat, s: State, c: nat, run: Run, x: nat)
    requires Ok(w, s) && CanDrive(s, c) && run.Settles? && RunOk(s.recs, |s.gens|, run)
    requires SlotKept(s, c, x) && !Finished(s.recs[c])
    requires CanDeliver(w, Closed(s, c, run), s.recs[c].handlers, run.v)
    ensures SlotKept(DeliverF(w, Closed(s, c, run), s.recs[c].handlers, run.v, Settle(run.kind)), c, x)
  {
    var s1, hs: seq<nat> := Closed(s, c, run), s.recs[c].handlers;
    ClosedFields(s, c, run, c);
    ClosedFields(s, c, run, x);
    DeliverAdvances(w, s1, hs, run.v, Settle(run.kind));
    DeliverKept(w, s1, hs, run.v, Settle(run.kind));
    var j :| 0 <= j < |hs| && hs[j] == x;
    var out := DeliverF(w, s1, hs, run.v, Settle(run.kind));
    KeptProto(s1, out, c);
    KeptProto(s1, out, x);
  }

  /** Settling another promise does nothing to the slots of `c`. */
  lemma OtherClosed(w: nat -> nat, s: State, h: nat, run: Run, c: nat, x: nat)
    requires Ok(w, s) && CanDrive(s, h) && run.Settles? && !Finished(s.recs[h])
    requires SlotKept(s, c, x) && h != c
    ensures SlotKept(Closed(s, h, run), c, x)
  {
    ClosedFields(s, h, run, c);
    ClosedFields(s, h, run, x);
  }

  lemma WaitServes(s: State, h: nat, run: Run, c: nat, x: nat)
    requires SlotKept(s, c, x) && CanDrive(s, h) && run.Suspends? && RunOk(s.recs, |s.gens|, run)
    requires !Finished(s.recs[h])
    ensures SlotKept(Waiting(s, h, run), c, x)
  {
    WaitingFields(s, h, run, c);
    WaitingFields(s, h, run, x);
  }

  lemma {:induction false} ResolveServes(w: nat -> nat, s: State, h: nat, data: Value, sig: Signal, c: nat, x: nat)
    requires CanResolve(w, s, h, data) && SlotKept(s, c, x)
    ensures SlotKept(ResolveF(w, s, h, data, sig), c, x)
    decreases Load(w, s.recs), 0
  {
    if Finished(s.recs[h]) {
      ResolveStops(w, s, h, data, sig);
    } else {
      ResolveUnfolds(w, s, h, data, sig);
      var run, hs: seq<nat> := Drive(s, h, data, sig), s.recs[h].handlers;
      hide Ok, ResolveF, Drive, Load, SlotKept;
      if run.Suspends? {
        WaitServes(s, h, run, c, x);
      } else if h == c {
        OwnServes(w, s, h, run, x);
      } else {
        OtherClosed(w, s, h, run, c, x);
        DeliverServes(w, Closed(s, h, run), hs, run.v, Settle(run.kind), c, x);
      }
    }
  }

  lemma {:induction false} OneServes(w: nat -> nat, s: State, h: nat, v: Value, sig: Signal, c: nat, x: nat)
    requires Ok(w, s) && !v.Prom? && h < |s.recs| && SlotKept(s, c, x)
    ensures SlotKept(DeliverOne(w, s, h, v, sig), c, x)
    decreases Load(w, s.recs) + w(h), 1
  {
    OneUnfolds(w, s, h, v, sig);
    hide Ok, ResolveF, DeliverOne, CloneF, Load, SlotKept;
    if IsProto(s, h) {
      var s1 := CloneF(w, s, h);
      CloneServes(w, s, h, c, x);
      DropServes(w, s1, h, c, x);
      ResolveServes(w, Drop(s1, h), |s.recs|, v, sig, c, x);
      DropServes(w, ResolveF(w, Drop(s1, h), |s.recs|, v, sig), |s.recs|, c, x);
    } else {
      ResolveServes(w, s, h, v, sig, c, x);
      DropServes(w, ResolveF(w, s, h, v, sig), h, c, x);
    }
  }

  lemma {:induction false} DeliverServes(w: nat -> nat, s: State, hs: seq<nat>, v: Value, sig: Signal, c: nat, x: nat)
    requires CanDeliver(w, s, hs, v) && SlotKept(s, c, x)
    ensures SlotKept(DeliverF(w, s, hs, v, sig), c, x)
    decreases Load(w, s.recs) + SlotCost(hs, w), 2 + |hs|
  {
    if hs != [] {
      DeliverUnfolds(w, s, hs, v, sig);
      hide DeliverOne, Load, SlotKept;
      OneServes(w, s, hs[0], v, sig, c, x);
      DeliverServes(w, DeliverOne(w, s, hs[0], v, sig), hs[1..], v, sig, c, x);
    }
  }

  // ---- Operations -----------------------------------------------------------------------------

  predicate Forgets(op: Op, t: nat) { (op.Forget? || op.ForgetNamed?) && op.p == t }

  lemma FinishServes(w: nat -> nat, s: State, p: nat, v: Value, sig: Signal, c: nat, x: nat)
    requires Ok(w, s) && p < |s.recs| && !v.Prom? && SlotKept(s, c, x)
    ensures SlotKept(FinishF(w, s, p, v, sig), c, x) && SlotKept(SettleF(w, s, p, v, sig), c, x)
  {
    if IsProto(s, p) {
      CloneServes(w, s, p, c, x);
      ResolveServes(w, CloneF(w, s, p), |s.recs|, v, sig, c, x);
    } else {
      ResolveServes(w, s, p, v, sig, c, x);
    }
  }

  lemma ThenServes(w: nat -> nat, s: State, p: nat, done: Callback, fail: Callback, c: nat, x: nat)
    requires Ok(w, s) && p < |s.recs| && SlotKept(s, c, x)
    ensures SlotKept(ThenF(w, s, p, done, fail), c, x)
  {
    var r := Pending(done, fail, Callback.Unset, PlainFlags(IsProto(s, p)));
    if Finished(s.recs[p]) {
      assert RecOk(w, s, p);
      CreatedOk(w, s, r);
      ResolveServes(w, Created(s, r), |s.recs|, s.recs[p].result, Settle(OutcomeKind(s.recs[p])), c, x);
    }
  }

  lemma RemoveServes(w: nat -> nat, s: State, p: nat, drop: nat -> bool, c: nat, x: nat)
    requires SlotsInRange(s.recs, p) && SlotKept(s, c, x) && p != c
    ensures SlotKept(RemoveWhere(s, p, drop), c, x)
  {
    ReleasedSlots(w, s, s.recs[p].handlers, drop, 0);
  }

  lemma CancelServes(w: nat -> nat, s: State, p: nat, e: int, c: nat, x: nat)
    requires Ok(w, s) && p < |s.recs| && !s.recs[p].flags.proto && !Finished(s.recs[p]) && SlotKept(s, c, x)
    ensures CanResolve(w, Canceling(s, p), p, Error(e))
    ensures SlotKept(ResolveF(w, Canceling(s, p), p, Error(e), Cancel), c, x)
  {
    CancelingOk(w, s, p);
    ResolveServes(w, Canceling(s, p), p, Error(e), Cancel, c, x);
  }

  /** Only forgetting takes an ordinary handler out of the slots of an unsettled ordinary promise. */
  lemma StepServes(s: State, op: Op, c: nat, x: nat)
    requires Good(s) && Legal(s, op) && SlotKept(s, c, x) && !Forgets(op, c)
    ensures SlotKept(Step(s, op), c, x)
  {
    var w := Weights(s);
    assert Ok(w, s);
    hide Good, Ok, ResolveF, CloneF, FinishF, SettleF, ThenF, RemoveWhere;
    match op
    case New(_, _, _, _) =>
    case Then(p, done, fail) => ThenServes(w, s, p, done, fail, c, x);
    case Append(p, h) =>
    case Forget(p, h) => SlotsOk(w, s, p); RemoveServes(w, s, p, IsHandler(h), c, x);
    case ForgetNamed(p, name) => SlotsOk(w, s, p); RemoveServes(w, s, p, HasName(s.recs, name), c, x);
    case SetName(p, name) =>
    case Finish(p, kind, v) => FinishServes(w, s, p, v, Settle(kind), c, x);
    case UserFinish(p, kind, v) => if UserMayFinish(s.recs[p]) { FinishServes(w, s, p, v, Settle(kind), c, x); }
    case Invoke(p, v) => FinishServes(w, s, p, v, Settle(Done), c, x);
    case CancelWith(p, e) =>
      if !Finished(s.recs[p]) {
        CancelServes(w, s, p, e, c, x);
      }
    case Release(p) => DropServes(w, s, p, c, x);
  }

  /** Over any run: a handler keeps its slot until its promise settles, and has fired from then on. */
  lemma {:induction false} RunServes(trace: seq<State>, ops: seq<Op>, j: nat, k: nat, c: nat, x: nat)
    requires IsRun(trace, ops) && j <= k <= |ops| && SlotKept(trace[j], c, x)
    requires forall m | j <= m < k :: !Forgets(ops[m], c)
    ensures SlotKept(trace[k], c, x)
    decreases k
  {
    if j < k {
      RunServes(trace, ops, j, k - 1, c, x);
      RunGood(trace, ops, k - 1);
      assert StepsTo(trace, ops, k - 1);
      StepServes(trace[k - 1], ops[k - 1], c, x);
    }
  }

  // ---- No callback runs twice -----------------------------------------------------------------

  lemma Extends(s: State, s': State)
    requires StillFired(s, s') && s'.log == s.log
    ensures Advances(s, s')
  {
    if Once(s) { forall p: nat ensures OnceAt(s', p) { assert OnceAt(s, p); } }
  }

  lemma FinishAdvances(w: nat -> nat, s: State, p: nat, v: Value, sig: Signal)
    requires Ok(w, s) && p < |s.recs| && !v.Prom?
    ensures Advances(s, FinishF(w, s, p, v, sig)) && Advances(s, SettleF(w, s, p, v, sig))
  {
    if IsProto(s, p) {
      CloneAdvances(w, s, p);
      ResolveAdvances(w, CloneF(w, s, p), |s.recs|, v, sig);
      DropAdvances(FinishF(w, s, p, v, sig), |s.recs|);
    } else {
      ResolveAdvances(w, s, p, v, sig);
    }
  }

  lemma CleanAdvances(s: State, p: nat)
    requires p < |s.recs|
    ensures Advances(s, TryClean(s, p))
  {
    if Once(s) {
      forall i: nat ensures OnceAt(TryClean(s, p), i) { assert OnceAt(s, i); CallsMore(s.log, Cleaned(p), i); }
    }
  }

  lemma RemoveAdvances(w: nat -> nat, s: State, p: nat, drop: nat -> bool)
    requires SlotsInRange(s.recs, p)
    ensures Advances(s, RemoveWhere(s, p, drop))
  {
    ReleasedSlots(w, s, s.recs[p].handlers, drop, 0);
    var recs := ReleaseSlots(s.recs, s.recs[p].handlers, drop);
    var s1 := s.(recs := recs[p := recs[p].(handlers := Filter(recs[p].handlers, drop))]);
    Extends(s, s1);
    CleanAdvances(s1, p);
  }

  lemma StepAdvances(s: State, op: Op)
    requires Good(s) && Legal(s, op)
    ensures Advances(s, Step(s, op))
  {
    var w := Weights(s);
    assert Ok(w, s);
    Extends(s, s);
    hide Good, Ok, ResolveF, CloneF, FinishF, SettleF, ThenF, RemoveWhere, Advances;
    match op
    case New(_, _, _, _) => Extends(s, Step(s, op));
    case Then(p, done, fail) => ThenAdvances(w, s, p, done, fail);
    case Append(p, h) => Extends(s, Step(s, op));
    case Forget(p, h) => SlotsOk(w, s, p); RemoveAdvances(w, s, p, IsHandler(h));
    case ForgetNamed(p, name) => SlotsOk(w, s, p); RemoveAdvances(w, s, p, HasName(s.recs, name));
    case SetName(p, name) => Extends(s, Step(s, op));
    case Finish(p, kind, v) => FinishAdvances(w, s, p, v, Settle(kind));
    case UserFinish(p, kind, v) => FinishAdvances(w, s, p, v, Settle(kind));
    case Invoke(p, v) => FinishAdvances(w, s, p, v, Settle(Done));
    case CancelWith(p, e) =>
      if !Finished(s.recs[p]) {
        CancelAdvances(w, s, p, e);
      }
    case Release(p) => DropAdvances(s, p);
  }

  lemma CancelAdvances(w: nat -> nat, s: State, p: nat, e: int)
    requires Ok(w, s) && p < |s.recs| && !s.recs[p].flags.proto && !Finished(s.recs[p])
    ensures CanResolve(w, Canceling(s, p), p, Error(e))
    ensures Advances(s, ResolveF(w, Canceling(s, p), p, Error(e), Cancel))
  {
    CancelingOk(w, s, p);
    Extends(s, Canceling(s, p));
    ResolveAdvances(w, Canceling(s, p), p, Error(e), Cancel);
    AdvancesTrans(s, Canceling(s, p), ResolveF(w, Canceling(s, p), p, Error(e), Cancel));
  }

  lemma ThenAdvances(w: nat -> nat, s: State, p: nat, done: Callback, fail: Callback)
    requires Ok(w, s) && p < |s.recs|
    ensures Advances(s, ThenF(w, s, p, done, fail))
  {
    var s1 := Created(s, Pending(done, fail, Callback.Unset, PlainFlags(IsProto(s, p))));
    Extends(s, s1);
    if Finished(s.recs[p]) {
      assert RecOk(w, s, p);
      CreatedOk(w, s, Pending(done, fail, Callback.Unset, PlainFlags(false)));
      ResolveAdvances(w, s1, |s.recs|, s.recs[p].result, Settle(OutcomeKind(s.recs[p])));
    } else {
      Extends(s, ThenF(w, s, p, done, fail));
    }
  }

  /** In every reachable state each promise has run at most one callback, and a pending one none. */
  lemma EveryCallbackOnce(trace: seq<State>, ops: seq<Op>, k: nat)
    requires IsRun(trace, ops) && trace[0] == State([], [], []) && k <= |ops|
    ensures Once(trace[k])
  {
    OnceStays(trace, ops, k);
  }

  lemma {:induction false} OnceStays(trace: seq<State>, ops: seq<Op>, k: nat)
    requires IsRun(trace, ops) && Once(trace[0]) && k <= |ops|
    ensures Once(trace[k])
  {
    if k > 0 {
      OnceStays(trace, ops, k - 1);
      RunGood(trace, ops, k - 1);
      assert StepsTo(trace, ops, k - 1);
      StepAdvances(trace[k - 1], ops[k - 1]);
    }
  }
}
