/** Resolving a promise and delivering its result to its handlers. */
module Delivery {
  import opened Values
  import opened Engine
  import opened Cloning

  /** The state when `run` has suspended `p`. */
  function Waiting(s: State, p: nat, run: Run): State
    requires CanDrive(s, p) && run.Suspends? && run.q < |s.recs|
  {
    State(Suspend(Started(s.recs, p), p, run.q, run.gen), run.gens, run.log)
  }

  /** The state when `run` has settled `p` and taken its handlers away for delivery. */
  function Closed(s: State, p: nat, run: Run): State
    requires CanDrive(s, p) && run.Settles?
  {
    var recs := Started(s.recs, p);
    State(recs[p := Settled(recs[p], run.v, run.kind)], run.gens, run.log)
  }

  function Drop(s: State, i: nat): State
    requires i < |s.recs|
  {
    s.(recs := AddRef(s.recs, i, -1))
  }

  ghost predicate CanResolve(w: nat -> nat, s: State, p: nat, data: Value) {
    Ok(w, s) && p < |s.recs| && !s.recs[p].flags.proto && !data.Prom?
  }

  /** Delivery never undoes anything: promises stay, and nothing gets heavier. */
  ghost predicate Later(w: nat -> nat, s: State, s': State) {
    && Ok(w, s') && Load(w, s'.recs) <= Load(w, s.recs)
    && |s.recs| <= |s'.recs|
  }

  /** ion_promisor_resolve. */
  ghost function ResolveF(w: nat -> nat, s: State, p: nat, data: Value, sig: Signal): (out: State)
    requires CanResolve(w, s, p, data)
    ensures Later(w, s, out)
    decreases Load(w, s.recs), 0
  {
    if Finished(s.recs[p]) then s
    else
      OkDrives(w, s, p);
      var run := Drive(s, p, data, sig);
      if run.Suspends? then
        SuspendOk(w, s, p, run);
        Waiting(s, p, run)
      else
        SettleOk(w, s, p, run);
        DeliverF(w, Closed(s, p, run), s.recs[p].handlers, run.v, Settle(run.kind))
  }

  /** One turn of the delivery loop: a prototype is cloned and its clone resolved, any other handler
      is resolved itself; either way the slot's reference goes. */
  ghost function DeliverOne(w: nat -> nat, s: State, h: nat, v: Value, sig: Signal): (out: State)
    requires Ok(w, s) && !v.Prom? && h < |s.recs|
    ensures Ok(w, out) && |s.recs| <= |out.recs| && Load(w, out.recs) <= Load(w, s.recs) + w(h)
    decreases Load(w, s.recs) + w(h), 1
  {
    assert RecOk(w, s, h);
    if IsProto(s, h) then
      var s1 := CloneF(w, s, h);
      RefOk(w, s1, h, -1);
      var s2 := ResolveF(w, Drop(s1, h), |s.recs|, v, sig);
      RefOk(w, s2, |s.recs|, -1);
      Drop(s2, |s.recs|)
    else
      var s2 := ResolveF(w, s, h, v, sig);
      RefOk(w, s2, h, -1);
      Drop(s2, h)
  }

  ghost predicate CanDeliver(w: nat -> nat, s: State, hs: seq<nat>, v: Value) {
    Ok(w, s) && !v.Prom? && forall j | 0 <= j < |hs| :: hs[j] < |s.recs|
  }

  /** The loop over the handlers `hs` taken from a promise that settled with `v`. */
  ghost function DeliverF(w: nat -> nat, s: State, hs: seq<nat>, v: Value, sig: Signal): (out: State)
    requires CanDeliver(w, s, hs, v)
    ensures Ok(w, out) && |s.recs| <= |out.recs|
    ensures Load(w, out.recs) <= Load(w, s.recs) + SlotCost(hs, w)
    decreases Load(w, s.recs) + SlotCost(hs, w), 2 + |hs|
  {
    if hs == [] then s
    else DeliverF(w, DeliverOne(w, s, hs[0], v, sig), hs[1..], v, sig)
  }

  lemma OkDrives(w: nat -> nat, s: State, p: nat)
    requires Ok(w, s) && p < |s.recs|
    ensures CanDrive(s, p) && PlainResults(s.recs)
  {
    assert RecOk(w, s, p);
    forall q | 0 <= q < |s.recs| && Finished(s.recs[q]) ensures !s.recs[q].result.Prom? { assert RecOk(w, s, q); }
  }

  /** Promise `p` with the marks of an activation: its await link, its generator, its processing bit. */
  function Marked(recs: seq<Rec>, p: nat, await: Option<nat>, gen: Option<nat>, on: bool): seq<Rec>
    requires p < |recs|
  {
    recs[p := recs[p].(await := await, gen := gen, flags := recs[p].flags.(processing := on))]
  }

  lemma MarkedOk(w: nat -> nat, s: State, p: nat, await: Option<nat>, gen: Option<nat>, on: bool, gens: seq<Script>,
      log: seq<Event>)
    requires Ok(w, s) && p < |s.recs| && !Finished(s.recs[p]) && !s.recs[p].flags.proto && |s.gens| <= |gens|
    requires gen.Some? ==> gen.value < |gens|
    requires await.None? ==> gen.None? && !on
    requires await.Some? ==> await.value < |s.recs| && p in s.recs[await.value].handlers
    ensures var s' := State(Marked(s.recs, p, await, gen, on), gens, log);
            Ok(w, s') && Load(w, s'.recs) == Load(w, s.recs)
  {
    var s' := State(Marked(s.recs, p, await, gen, on), gens, log);
    SumUpdate(Cost(w), s.recs, p, s'.recs[p]);
    forall i | 0 <= i < |s'.recs| ensures RecOk(w, s', i) { assert RecOk(w, s, i); }
  }

  /** The records while `p` runs, with the marks of its activation rubbed out. */
  function Quiet(recs: seq<Rec>, p: nat): seq<Rec>
    requires p < |recs|
  {
    Marked(recs, p, None, None, false)
  }

  lemma QuietOk(w: nat -> nat, s: State, p: nat)
    requires Ok(w, s) && p < |s.recs| && !Finished(s.recs[p]) && !s.recs[p].flags.proto && CanDrive(s, p)
    ensures Ok(w, s.(recs := Quiet(Started(s.recs, p), p)))
    ensures Load(w, Quiet(Started(s.recs, p), p)) == Load(w, s.recs)
  {
    var r := s.recs[p];
    MarkedOk(w, s, p, None, None, false, s.gens, s.log);
    var recs := Quiet(s.recs, p);
    if r.await.Some? {
      RefOk(w, s.(recs := recs), r.await.value, -1);
      assert Quiet(Started(s.recs, p), p) == AddRef(recs, r.await.value, -1);
    } else {
      assert Quiet(Started(s.recs, p), p) == recs;
    }
  }

  /** Suspending is: take a slot of `q`, mark `p`, and count both new references. */
  lemma SuspendSteps(recs: seq<Rec>, p: nat, q: nat, gen: Option<nat>)
    requires p < |recs| && q < |recs|
    ensures var r2 := PushSlot(Quiet(recs, p), q, p);
            Suspend(recs, p, q, gen) ==
            AddRef(AddRef(Marked(r2, p, Some(q), gen, recs[p].flags.processing), p, 1), q, 1)
  {
    var r2 := PushSlot(Quiet(recs, p), q, p);
    var a := Suspend(recs, p, q, gen);
    var b := AddRef(AddRef(Marked(r2, p, Some(q), gen, recs[p].flags.processing), p, 1), q, 1);
    assert a[p] == b[p];
    assert a[q] == b[q];
    assert forall i | 0 <= i < |recs| && i != p && i != q :: a[i] == b[i];
    assert a == b;
  }

  lemma StartedFields(recs: seq<Rec>, h: nat, i: nat)
    requires h < |recs| && i < |recs| && (recs[h].await.Some? ==> recs[h].await.value < |recs|)
    ensures var r, r' := recs[i], Started(recs, h)[i];
            r' == if i == h
              then r.(await := None, refs := r'.refs, flags := r.flags.(processing := r'.flags.processing))
                  else r.(refs := r'.refs)
  {
  }

  lemma SuspendFields(recs: seq<Rec>, h: nat, q: nat, gen: Option<nat>, i: nat)
    requires h < |recs| && q < |recs| && i < |recs|
    ensures var r, r' := recs[i], Suspend(recs, h, q, gen)[i];
            var x := if i == h then r.(await := Some(q), gen := gen) else r;
            r' == (if i == q then x.(handlers := r.handlers + [h]) else x).(refs := r'.refs)
  {
  }

  /** What suspending `h` does to each record. */
  lemma WaitingFields(s: State, h: nat, run: Run, i: nat)
    requires CanDrive(s, h) && run.Suspends? && run.q < |s.recs| && i < |s.recs|
    ensures var r, r' := s.recs[i], Waiting(s, h, run).recs[i];
            r' == r.(await := if i == h then Some(run.q) else r.await, gen := if i == h then run.gen else r.gen,
                     handlers := if i == run.q then r.handlers + [h] else r.handlers, refs := r'.refs,
                     flags := r.flags.(processing := r'.flags.processing))
            && (i != h ==> r'.flags == r.flags)
  {
    StartedFields(s.recs, h, i);
    SuspendFields(Started(s.recs, h), h, run.q, run.gen, i);
    hide Started, Suspend;
  }

  /** What settling `h` does to each record. */
  lemma ClosedFields(s: State, h: nat, run: Run, i: nat)
    requires CanDrive(s, h) && run.Settles? && i < |s.recs|
    ensures var r, r' := s.recs[i], Closed(s, h, run).recs[i];
            r' == (if i == h then Settled(r, run.v, run.kind).(await := None) else r).(refs := r'.refs)
  {
    StartedFields(s.recs, h, i);
    hide Started;
  }

  lemma SuspendOk(w: nat -> nat, s: State, p: nat, run: Run)
    requires Ok(w, s) && p < |s.recs| && !Finished(s.recs[p]) && !s.recs[p].flags.proto && CanDrive(s, p)
    requires run.Suspends? && RunOk(s.recs, |s.gens|, run)
    ensures Later(w, s, Waiting(s, p, run))
  {
    var recs, q := Started(s.recs, p), run.q;
    SuspendSteps(recs, p, q, run.gen);
    QuietOk(w, s, p);
    SlotTaken(w, s.(recs := Quiet(recs, p)), p, q, run, recs[p].flags.processing);
  }

  lemma SlotTaken(w: nat -> nat, s1: State, p: nat, q: nat, run: Run, on: bool)
    requires Ok(w, s1) && p < |s1.recs| && q < |s1.recs| && !Finished(s1.recs[p]) && !Finished(s1.recs[q])
    requires !s1.recs[p].flags.proto && run.Suspends? && |s1.gens| <= |run.gens|
    requires run.gen.Some? ==> run.gen.value < |run.gens|
    ensures var r2 := PushSlot(s1.recs, q, p);
            Later(w, s1, State(AddRef(AddRef(Marked(r2, p, Some(q), run.gen, on), p, 1), q, 1), run.gens, run.log))
  {
    assert RecOk(w, s1, p);
    PushOk(w, s1, q, p);
    var s2 := s1.(recs := PushSlot(s1.recs, q, p));
    assert s2.recs[q].handlers[|s1.recs[q].handlers|] == p;
    MarkedOk(w, s2, p, Some(q), run.gen, on, run.gens, run.log);
    var s3 := State(Marked(s2.recs, p, Some(q), run.gen, on), run.gens, run.log);
    RefOk(w, s3, p, 1);
    RefOk(w, s3.(recs := AddRef(s3.recs, p, 1)), q, 1);
  }

  lemma SettleOk(w: nat -> nat, s: State, p: nat, run: Run)
    requires Ok(w, s) && p < |s.recs| && !Finished(s.recs[p]) && !s.recs[p].flags.proto && CanDrive(s, p)
    requires run.Settles? && RunOk(s.recs, |s.gens|, run)
    ensures var s' := Closed(s, p, run); Ok(w, s') && |s'.recs| == |s.recs|
    ensures Load(w, Closed(s, p, run).recs) + SlotCost(s.recs[p].handlers, w) == Load(w, s.recs) - 1
    ensures forall j | 0 <= j < |s.recs[p].handlers| :: s.recs[p].handlers[j] < |s.recs|
  {
    var recs := Started(s.recs, p);
    assert RecOk(w, s, p);
    QuietOk(w, s, p);
    assert Settled(Quiet(recs, p)[p], run.v, run.kind) == Settled(recs[p], run.v, run.kind).(await := None);
    assert recs[p := Settled(recs[p], run.v, run.kind)] == Quiet(recs, p)[p := Settled(recs[p], run.v, run.kind)];
    SettledOk(w, s.(recs := Quiet(recs, p)), p, run);
  }

  lemma SettledOk(w: nat -> nat, s1: State, p: nat, run: Run)
    requires Ok(w, s1) && p < |s1.recs| && !Finished(s1.recs[p]) && !s1.recs[p].flags.proto
    requires s1.recs[p].await.None? && run.Settles? && !run.v.Prom? && |s1.gens| <= |run.gens|
    ensures var s' := State(s1.recs[p := Settled(s1.recs[p], run.v, run.kind)], run.gens, run.log);
            Ok(w, s') && Load(w, s'.recs) + SlotCost(s1.recs[p].handlers, w) == Load(w, s1.recs) - 1
  {
    var s2 := State(s1.recs[p := Settled(s1.recs[p], run.v, run.kind)], run.gens, run.log);
    assert RecOk(w, s1, p);
    SumUpdate(Cost(w), s1.recs, p, s2.recs[p]);
    forall i | 0 <= i < |s2.recs| ensures RecOk(w, s2, i) { assert RecOk(w, s1, i); }
  }

  lemma ResolveStops(w: nat -> nat, s: State, p: nat, data: Value, sig: Signal)
    requires CanResolve(w, s, p, data) && Finished(s.recs[p])
    ensures ResolveF(w, s, p, data, sig) == s
  {
  }

  lemma ResolveUnfolds(w: nat -> nat, s: State, p: nat, data: Value, sig: Signal)
    requires CanResolve(w, s, p, data) && !Finished(s.recs[p])
    ensures CanDrive(s, p) && PlainResults(s.recs)
    ensures var run, hs := Drive(s, p, data, sig), s.recs[p].handlers;
            && RunOk(s.recs, |s.gens|, run)
            && (run.Suspends? ==> ResolveF(w, s, p, data, sig) == Waiting(s, p, run))
            && (run.Settles? ==>
                  && CanDeliver(w, Closed(s, p, run), hs, run.v)
                  && ResolveF(w, s, p, data, sig) == DeliverF(w, Closed(s, p, run), hs, run.v, Settle(run.kind))
                  && Load(w, Closed(s, p, run).recs) + SlotCost(hs, w) < Load(w, s.recs))
  {
    OkDrives(w, s, p);
    var run := Drive(s, p, data, sig);
    if run.Settles? { SettleOk(w, s, p, run); }
  }

  lemma DeliverUnfolds(w: nat -> nat, s: State, hs: seq<nat>, v: Value, sig: Signal)
    requires CanDeliver(w, s, hs, v) && hs != []
    ensures hs[0] < |s.recs| && Ok(w, s) && CanDeliver(w, DeliverOne(w, s, hs[0], v, sig), hs[1..], v)
    ensures DeliverF(w, s, hs, v, sig) == DeliverF(w, DeliverOne(w, s, hs[0], v, sig), hs[1..], v, sig)
    ensures Load(w, DeliverOne(w, s, hs[0], v, sig).recs) + SlotCost(hs[1..], w) <= Load(w, s.recs) + SlotCost(hs, w)
    ensures Load(w, s.recs) + w(hs[0]) <= Load(w, s.recs) + SlotCost(hs, w)
  {
  }

  lemma OneUnfolds(w: nat -> nat, s: State, h: nat, v: Value, sig: Signal)
    requires Ok(w, s) && !v.Prom? && h < |s.recs|
    ensures !IsProto(s, h) ==>
              && CanResolve(w, s, h, v) && h < |ResolveF(w, s, h, v, sig).recs|
              && DeliverOne(w, s, h, v, sig) == Drop(ResolveF(w, s, h, v, sig), h)
    ensures IsProto(s, h) ==>
              && h < |CloneF(w, s, h).recs| && CanResolve(w, Drop(CloneF(w, s, h), h), |s.recs|, v)
              && Load(w, Drop(CloneF(w, s, h), h).recs) < Load(w, s.recs) + w(h)
              && |s.recs| < |ResolveF(w, Drop(CloneF(w, s, h), h), |s.recs|, v, sig).recs|
              && DeliverOne(w, s, h, v, sig) == Drop(ResolveF(w, Drop(CloneF(w, s, h), h), |s.recs|, v, sig), |s.recs|)
  {
    assert RecOk(w, s, h);
    if IsProto(s, h) { RefOk(w, CloneF(w, s, h), h, -1); }
  }
}
