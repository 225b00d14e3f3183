/** Every handler gets the outcome, over whole runs. */
module Passing {
  import opened Values
  import opened Engine
  import opened Cloning
  import opened Delivery
  import opened Permanence
  import opened Operations
  import opened Graph
  import opened Runs
  import opened Firing
  import opened Handlers
  import opened Births
  import opened Activations
  import opened Deliveries

  /** `x` is a pending handler of the pending promise `p`, and of no other. */
  ghost predicate Bound(s: State, p: nat, x: nat) {
    p != x && Open(s, p) && Open(s, x) && x in s.recs[p].handlers && Listed(s.recs, x) == 1
  }

  /** From `s` to `out`, `x` has been given the outcome of `p`, or it is still waiting for it. */
  ghost predicate Passed(s: State, out: State, p: nat, x: nat) {
    && p < |s.recs| && x < |s.recs| && p < |out.recs| && x < |out.recs|
    && var r := out.recs[p];
       if r.flags.done || r.flags.failed then
         Given(s.recs[x], x, Settle(if r.flags.done then Done else Failed), r.result, s, out)
       else Bound(out, p, x) && Still(s, out, x)
  }

  lemma OnlyThere(s: State, p: nat, x: nat, i: nat)
    requires Bound(s, p, x) && i < |s.recs| && i != p
    ensures x !in s.recs[i].handlers && multiset(s.recs[i].handlers)[x] == 0
  {
    var recs := s.recs[i := s.recs[i].(handlers := [])];
    ListedUpdate(s.recs, i, recs[i], x);
    ListedAtLeast(recs, p, x);
  }

  lemma BoundOff(s: State, p: nat, x: nat)
    requires Bound(s, p, x)
    ensures Off(s, x)
  {
    forall i | 0 <= i < |s.recs| && s.recs[i].flags.proto ensures x !in s.recs[i].handlers { OnlyThere(s, p, x, i); }
  }

  /** `p` is still pending and has kept the handler. */
  lemma BoundStays(s: State, s': State, p: nat, x: nat)
    requires Bound(s, p, x) && Still(s, s', x) && Open(s', p) && x in s'.recs[p].handlers
    ensures Passed(s, s', p, x) && Bound(s', p, x)
  {
    hide Listed;
  }

  lemma PassedNow(s: State, p: nat, x: nat)
    requires Bound(s, p, x)
    ensures Passed(s, s, p, x)
  {
  }

  /** What holds after one part holds after both. */
  lemma PassedOn(s: State, s1: State, out: State, p: nat, x: nat)
    requires Passed(s, s1, p, x) && Onward(s, s1) && Onward(s1, out)
    requires Bound(s1, p, x) ==> Passed(s1, out, p, x)
    ensures Passed(s, out, p, x)
  {
    hide Listed, Given;
    var r := s1.recs[p];
    if r.flags.done || r.flags.failed {
      assert KeptAt(s1, out, p);
      hide Kept;
      var sig := Settle(if r.flags.done then Done else Failed);
      GivenWider(s.recs[x], s.recs[x], x, sig, r.result, s, s, s1, out);
    } else {
      hide Kept;
      var r' := out.recs[p];
      if r'.flags.done || r'.flags.failed {
        var sig := Settle(if r'.flags.done then Done else Failed);
        GivenFrom(s1.recs[x], s.recs[x], x, sig, r'.result, s, s1, out);
      } else {
        StillTrans(s, s1, out, x);
      }
    }
  }

  lemma DropPasses(s: State, i: nat, p: nat, x: nat)
    requires i < |s.recs| && Bound(s, p, x)
    ensures Passed(s, Drop(s, i), p, x)
  {
    DropStill(s, i, x);
    BoundStays(s, Drop(s, i), p, x);
  }

  lemma ClonePasses(w: nat -> nat, s: State, t: nat, p: nat, x: nat)
    requires Ok(w, s) && IsProto(s, t) && Bound(s, p, x)
    ensures Passed(s, CloneF(w, s, t), p, x) && Bound(CloneF(w, s, t), p, x)
  {
    BoundOff(s, p, x);
    CloneStill(w, s, t, x);
    assert FrameAt(w, s, CloneF(w, s, t), p, w(t), |s.recs|);
    BoundStays(s, CloneF(w, s, t), p, x);
  }

  lemma WaitingPasses(s: State, h: nat, run: Run, p: nat, x: nat)
    requires CanDrive(s, h) && run.Suspends? && run.q < |s.recs| && Bound(s, p, x) && h != x
    ensures Passed(s, Waiting(s, h, run), p, x)
  {
    WaitingStill(s, h, run, x);
    WaitingFields(s, h, run, p);
    hide Waiting, Listed;
    BoundStays(s, Waiting(s, h, run), p, x);
  }

  /** Settling `p` gives its outcome to the handler. */
  lemma OwnPasses(w: nat -> nat, s: State, p: nat, run: Run, x: nat)
    requires Ok(w, s) && CanDrive(s, p) && run.Settles? && RunOk(s.recs, |s.gens|, run) && Bound(s, p, x)
    requires s.log <= run.log
    requires CanDeliver(w, Closed(s, p, run), s.recs[p].handlers, run.v)
    ensures Passed(s, DeliverF(w, Closed(s, p, run), s.recs[p].handlers, run.v, Settle(run.kind)), p, x)
  {
    var s1, hs: seq<nat> := Closed(s, p, run), s.recs[p].handlers;
    var out := DeliverF(w, s1, hs, run.v, Settle(run.kind));
    ClosedFields(s, p, run, p);
    ClosedFields(s, p, run, x);
    ClosedListed(s, p, run, x);
    ClosedOnward(w, s, p, run);
    DeliverOnward(w, s1, hs, run.v, Settle(run.kind));
    assert multiset(hs)[x] > 0;
    hide Closed, Listed, Given, Ok;
    DeliverGives(w, s1, hs, run.v, Settle(run.kind), x);
    assert KeptAt(s1, out, p);
    hide Kept;
    GivenFrom(s1.recs[x], s.recs[x], x, Settle(run.kind), run.v, s, s1, out);
  }

  lemma OtherClosed(w: nat -> nat, s: State, h: nat, run: Run, p: nat, x: nat)
    requires CanDrive(s, h) && run.Settles? && Bound(s, p, x) && h != x && h != p
    ensures Passed(s, Closed(s, h, run), p, x) && Bound(Closed(s, h, run), p, x) && x !in s.recs[h].handlers
  {
    OnlyThere(s, p, x, h);
    ClosedStill(s, h, run, x);
    ClosedFields(s, h, run, p);
    hide Closed, Listed;
    BoundStays(s, Closed(s, h, run), p, x);
  }

  lemma {:induction false} ResolvePasses(w: nat -> nat, s: State, h: nat, data: Value, sig: Signal, p: nat, x: nat)
    requires CanResolve(w, s, h, data) && Bound(s, p, x) && h != x
    ensures Passed(s, ResolveF(w, s, h, data, sig), p, x)
    decreases Load(w, s.recs), 0
  {
    if Finished(s.recs[h]) {
      ResolveStops(w, s, h, data, sig);
    } else {
      ResolveUnfolds(w, s, h, data, sig);
      DriveLog(s, h, data, sig);
      var run, hs: seq<nat> := Drive(s, h, data, sig), s.recs[h].handlers;
      hide ResolveF, Drive, Load, Passed, Listed;
      if run.Suspends? {
        WaitingPasses(s, h, run, p, x);
      } else if h == p {
        OwnPasses(w, s, p, run, x);
      } else {
        var s1 := Closed(s, h, run);
        OtherClosed(w, s, h, run, p, x);
        ClosedOnward(w, s, h, run);
        DeliverOnward(w, s1, hs, run.v, Settle(run.kind));
        hide Ok, Bound, Closed;
        DeliverPasses(w, s1, hs, run.v, Settle(run.kind), p, x);
        PassedOn(s, s1, DeliverF(w, s1, hs, run.v, Settle(run.kind)), p, x);
      }
    }
  }

  lemma ThenDropped(w: nat -> nat, s: State, s1: State, i: nat, p: nat, x: nat)
    requires Passed(s, s1, p, x) && Onward(s, s1) && Ok(w, s1) && i < |s1.recs|
    ensures Passed(s, Drop(s1, i), p, x)
  {
    DropOnward(w, s1, i);
    if Bound(s1, p, x) { DropPasses(s1, i, p, x); }
    hide Passed, Bound, Onward;
    PassedOn(s, s1, Drop(s1, i), p, x);
  }

  lemma {:induction false} OnePasses(w: nat -> nat, s: State, h: nat, v: Value, sig: Signal, p: nat, x: nat)
    requires Ok(w, s) && !v.Prom? && h < |s.recs| && Bound(s, p, x) && h != x
    ensures Passed(s, DeliverOne(w, s, h, v, sig), p, x)
    decreases Load(w, s.recs) + w(h), 1
  {
    OneUnfolds(w, s, h, v, sig);
    hide ResolveF, DeliverOne, CloneF, Load, Listed, Passed, Onward;
    if IsProto(s, h) {
      var s1, c := CloneF(w, s, h), |s.recs|;
      ClonePasses(w, s, h, p, x);
      CloneOnward(w, s, h);
      DropPasses(s1, h, p, x);
      DropOnward(w, s1, h);
      var s2 := Drop(s1, h);
      PassedOn(s, s1, s2, p, x);
      OnwardTrans(s, s1, s2);
      CloneDropped(s1, h, p, x);
      ResolvePasses(w, s2, c, v, sig, p, x);
      ResolveOnward(w, s2, c, v, sig);
      var s3 := ResolveF(w, s2, c, v, sig);
      PassedOn(s, s2, s3, p, x);
      OnwardTrans(s, s2, s3);
      ThenDropped(w, s, s3, c, p, x);
    } else {
      ResolvePasses(w, s, h, v, sig, p, x);
      ResolveOnward(w, s, h, v, sig);
      ThenDropped(w, s, ResolveF(w, s, h, v, sig), h, p, x);
    }
  }

  lemma CloneDropped(s: State, i: nat, p: nat, x: nat)
    requires Bound(s, p, x) && i < |s.recs|
    ensures Bound(Drop(s, i), p, x)
  {
    ListedSame(s.recs, Drop(s, i).recs, x);
  }

  lemma {:induction false} DeliverPasses(w: nat -> nat, s: State, hs: seq<nat>, v: Value, sig: Signal, p: nat, x: nat)
    requires CanDeliver(w, s, hs, v) && Bound(s, p, x) && x !in hs
    ensures Passed(s, DeliverF(w, s, hs, v, sig), p, x)
    decreases Load(w, s.recs) + SlotCost(hs, w), 2 + |hs|
  {
    if hs == [] {
      PassedNow(s, p, x);
    } else {
      DeliverUnfolds(w, s, hs, v, sig);
      var s1 := DeliverOne(w, s, hs[0], v, sig);
      hide DeliverOne, Load, SlotCost, Listed, Passed, Bound, Onward, Ok;
      OnePasses(w, s, hs[0], v, sig, p, x);
      OneOnward(w, s, hs[0], v, sig);
      DeliverOnward(w, s1, hs[1..], v, sig);
      if Bound(s1, p, x) { DeliverPasses(w, s1, hs[1..], v, sig, p, x); }
      PassedOn(s, s1, DeliverF(w, s1, hs[1..], v, sig), p, x);
    }
  }

  // ---- Operations and runs --------------------------------------------------------------------

  /** The program takes the handler out, puts it into another slot, or settles it by hand. */
  predicate Interferes(s: State, op: Op, p: nat, x: nat)
    requires x < |s.recs|
  {
    match op
    case Append(_, h) => h == x
    case Forget(q, h) => q == p && h == x
    case ForgetNamed(q, name) => q == p && s.recs[x].name == Some(name)
    case Finish(q, _, _) => q == x
    case UserFinish(q, _, _) => q == x
    case CancelWith(q, _) => q == x
    case _ => false
  }

  lemma CreatedPasses(s: State, r: Rec, p: nat, x: nat)
    requires Bound(s, p, x) && r.handlers == []
    ensures Passed(s, Created(s, r), p, x) && Bound(Created(s, r), p, x)
  {
    assert Created(s, r).recs[..|s.recs|] == s.recs;
    BoundStays(s, Created(s, r), p, x);
  }

  lemma PushPasses(s: State, q: nat, h: nat, p: nat, x: nat)
    requires Bound(s, p, x) && q < |s.recs| && h != x
    ensures Passed(s, s.(recs := PushSlot(s.recs, q, h)), p, x) && Bound(s.(recs := PushSlot(s.recs, q, h)), p, x)
  {
    var s1 := s.(recs := PushSlot(s.recs, q, h));
    ListedUpdate(s.recs, q, s1.recs[q], x);
    assert x in s1.recs[p].handlers;
    hide Listed;
    BoundStays(s, s1, p, x);
  }

  /** Changes that concern neither the slots nor the handler. */
  lemma FlagPasses(s: State, s1: State, p: nat, x: nat)
    requires Bound(s, p, x) && |s1.recs| == |s.recs| && Open(s1, p)
    requires forall i | 0 <= i < |s.recs| :: s1.recs[i].handlers == s.recs[i].handlers
    requires s1.recs[x] == s.recs[x].(refs := s1.recs[x].refs, name := s1.recs[x].name)
    ensures Passed(s, s1, p, x) && Bound(s1, p, x)
  {
    ListedSame(s.recs, s1.recs, x);
    hide Listed;
    BoundStays(s, s1, p, x);
  }

  lemma RemovePasses(w: nat -> nat, s: State, q: nat, drop: nat -> bool, p: nat, x: nat)
    requires SlotsInRange(s.recs, q) && Bound(s, p, x) && (q == p ==> !drop(x))
    ensures Passed(s, RemoveWhere(s, q, drop), p, x)
  {
    var hs, recs := s.recs[q].handlers, ReleaseSlots(s.recs, s.recs[q].handlers, drop);
    var out := recs[q := recs[q].(handlers := Filter(hs, drop))];
    ReleasedFields(w, s, hs, drop);
    ListedSame(s.recs, recs, x);
    ListedUpdate(recs, q, out[q], x);
    if q != p { OnlyThere(s, p, x, q); }
    FilterCount(hs, drop, x);
    FilterIn(hs, drop);
    hide Listed, Filter, ReleaseSlots;
    assert x in out[p].handlers;
    BoundStays(s, s.(recs := out), p, x);
    CleanPasses(s, s.(recs := out), q, p, x);
  }

  lemma CleanPasses(s: State, s1: State, q: nat, p: nat, x: nat)
    requires q < |s1.recs| && Bound(s1, p, x) && Passed(s, s1, p, x)
    ensures Passed(s, TryClean(s1, q), p, x)
  {
    hide Listed;
  }

  lemma ReleasedFields(w: nat -> nat, s: State, hs: seq<nat>, drop: nat -> bool)
    requires forall j | 0 <= j < |hs| :: hs[j] < |s.recs|
    ensures forall i | 0 <= i < |s.recs| ::
              ReleaseSlots(s.recs, hs, drop)[i] == s.recs[i].(refs := ReleaseSlots(s.recs, hs, drop)[i].refs)
  {
    ReleasedSlots(w, s, hs, drop, 0);
  }

  lemma FinishPasses(w: nat -> nat, s: State, q: nat, v: Value, sig: Signal, p: nat, x: nat)
    requires Ok(w, s) && q < |s.recs| && !v.Prom? && Bound(s, p, x) && q != x
    ensures Passed(s, FinishF(w, s, q, v, sig), p, x) && Passed(s, SettleF(w, s, q, v, sig), p, x)
    ensures Onward(s, FinishF(w, s, q, v, sig)) && Onward(s, SettleF(w, s, q, v, sig))
  {
    var out := FinishF(w, s, q, v, sig);
    if IsProto(s, q) {
      var s1, c := CloneF(w, s, q), |s.recs|;
      ClonePasses(w, s, q, p, x);
      CloneOnward(w, s, q);
      ResolvePasses(w, s1, c, v, sig, p, x);
      ResolveOnward(w, s1, c, v, sig);
      hide CloneF, ResolveF, Bound, Passed, Onward;
      PassedOn(s, s1, out, p, x);
      OnwardTrans(s, s1, out);
      ThenDropped(w, s, out, c, p, x);
      DropOnward(w, out, c);
      OnwardTrans(s, out, Drop(out, c));
    } else {
      ResolvePasses(w, s, q, v, sig, p, x);
      ResolveOnward(w, s, q, v, sig);
    }
  }

  lemma ThenPasses(w: nat -> nat, s: State, q: nat, done: Callback, fail: Callback, p: nat, x: nat)
    requires Ok(w, s) && q < |s.recs| && Bound(s, p, x)
    ensures Passed(s, ThenF(w, s, q, done, fail), p, x)
  {
    var r := Pending(done, fail, Callback.Unset, PlainFlags(IsProto(s, q)));
    var s1 := Created(s, r);
    CreatedPasses(s, r, p, x);
    if Finished(s.recs[q]) {
      assert RecOk(w, s, q);
      CreatedOk(w, s, r);
      var v, sig := s.recs[q].result, Settle(OutcomeKind(s.recs[q]));
      hide Listed, Bound;
      CreatedOnward(w, s, r);
      ResolvePasses(w, s1, |s.recs|, v, sig, p, x);
      ResolveOnward(w, s1, |s.recs|, v, sig);
      PassedOn(s, s1, ResolveF(w, s1, |s.recs|, v, sig), p, x);
    } else {
      AttachPasses(s1, q, |s.recs|, p, x);
      PassedTwice(s, s1, Appended(s1, q, |s.recs|), p, x);
    }
  }

  lemma CreatedOnward(w: nat -> nat, s: State, r: Rec)
    requires Ok(w, s)
    ensures Onward(s, Created(s, r))
  {
    var s1 := Created(s, r);
    forall i | 0 <= i < |s.recs| ensures KeptAt(s, s1, i) { SameSlots(w, s, s1, i); }
  }

  lemma AttachPasses(s: State, q: nat, h: nat, p: nat, x: nat)
    requires Bound(s, p, x) && q < |s.recs| && h < |s.recs| && h != x
    ensures Passed(s, Appended(s, q, h), p, x) && Bound(Appended(s, q, h), p, x)
  {
    var s1, s2 := s.(recs := PushSlot(s.recs, q, h)), Appended(s, q, h);
    PushPasses(s, q, h, p, x);
    FlagPasses(s1, s2, p, x);
    PassedTwice(s, s1, s2, p, x);
  }

  lemma PassedTwice(s: State, s1: State, s2: State, p: nat, x: nat)
    requires Bound(s, p, x) && Passed(s, s1, p, x) && Bound(s1, p, x) && Passed(s1, s2, p, x) && Bound(s2, p, x)
    ensures Passed(s, s2, p, x)
  {
    StillTrans(s, s1, s2, x);
  }

  lemma CancelPasses(w: nat -> nat, s: State, q: nat, e: int, p: nat, x: nat)
    requires Ok(w, s) && q < |s.recs| && !s.recs[q].flags.proto && !Finished(s.recs[q]) && Bound(s, p, x) && q != x
    ensures CanResolve(w, Canceling(s, q), q, Error(e))
    ensures Passed(s, ResolveF(w, Canceling(s, q), q, Error(e), Cancel), p, x)
  {
    var s1 := Canceling(s, q);
    CancelingOk(w, s, q);
    FlagPasses(s, s1, p, x);
    ResolvePasses(w, s1, q, Error(e), Cancel, p, x);
    var out := ResolveF(w, s1, q, Error(e), Cancel);
    assert s1.log == s.log && s1.gens == s.gens;
    hide ResolveF, Listed, Given;
    if out.recs[p].flags.done || out.recs[p].flags.failed {
      GivenFrom(s1.recs[x], s.recs[x], x, Settle(if out.recs[p].flags.done then Done else Failed), out.recs[p].result,
        s, s1, out);
    } else {
      StillTrans(s, s1, out, x);
    }
  }

  /** One operation: the handler has been given the outcome of its promise, or both are still pending. */
  lemma StepPasses(s: State, op: Op, p: nat, x: nat)
    requires Good(s) && Legal(s, op) && Bound(s, p, x) && !Interferes(s, op, p, x)
    ensures Passed(s, Step(s, op), p, x)
  {
    var w := Weights(s);
    assert Ok(w, s);
    PassedNow(s, p, x);
    hide Good, Ok, ResolveF, CloneF, FinishF, SettleF, ThenF, RemoveWhere, Passed, Bound, Listed, Onward;
    match op
    case New(done, fail, canceler, flags) => CreatedPasses(s, Pending(done, fail, canceler, flags), p, x);
    case Then(q, done, fail) => ThenPasses(w, s, q, done, fail, p, x);
    case Append(q, h) => if q != h { AppendPasses(s, q, h, p, x); }
    case Forget(q, h) => SlotsOk(w, s, q); RemovePasses(w, s, q, IsHandler(h), p, x);
    case ForgetNamed(q, name) => SlotsOk(w, s, q); RemovePasses(w, s, q, HasName(s.recs, name), p, x);
    case SetName(q, name) => NamePasses(s, q, name, p, x);
    case Finish(q, kind, v) => FinishPasses(w, s, q, v, Settle(kind), p, x);
    case UserFinish(q, kind, v) => FinishPasses(w, s, q, v, Settle(kind), p, x);
    case Invoke(q, v) => FinishPasses(w, s, q, v, Settle(Done), p, x);
    case CancelWith(q, e) => if !Finished(s.recs[q]) { CancelPasses(w, s, q, e, p, x); }
    case Release(q) => DropPasses(s, q, p, x);
  }

  lemma AppendPasses(s: State, q: nat, h: nat, p: nat, x: nat)
    requires Bound(s, p, x) && q < |s.recs| && h < |s.recs| && h != x
    ensures Passed(s, s.(recs := AddRef(Appended(s, q, h).recs, h, 1)), p, x)
  {
    var s1 := Appended(s, q, h);
    AttachPasses(s, q, h, p, x);
    FlagPasses(s1, s1.(recs := AddRef(s1.recs, h, 1)), p, x);
    PassedTwice(s, s1, s1.(recs := AddRef(s1.recs, h, 1)), p, x);
  }

  lemma NamePasses(s: State, q: nat, name: string, p: nat, x: nat)
    requires Bound(s, p, x) && q < |s.recs|
    ensures Passed(s, s.(recs := s.recs[q := s.recs[q].(name := Some(name))]), p, x)
  {
    FlagPasses(s, s.(recs := s.recs[q := s.recs[q].(name := Some(name))]), p, x);
  }

  lemma FinishLog(w: nat -> nat, s: State, q: nat, v: Value, sig: Signal)
    requires Ok(w, s) && q < |s.recs| && !v.Prom?
    ensures s.log <= FinishF(w, s, q, v, sig).log && s.log <= SettleF(w, s, q, v, sig).log
  {
    if IsProto(s, q) {
      CloneLog(w, s, q);
      ResolveLog(w, CloneF(w, s, q), |s.recs|, v, sig);
    } else {
      ResolveLog(w, s, q, v, sig);
    }
  }

  lemma ThenLog(w: nat -> nat, s: State, q: nat, done: Callback, fail: Callback)
    requires Ok(w, s) && q < |s.recs|
    ensures s.log <= ThenF(w, s, q, done, fail).log
  {
    var r := Pending(done, fail, Callback.Unset, PlainFlags(IsProto(s, q)));
    if Finished(s.recs[q]) {
      assert RecOk(w, s, q);
      CreatedOk(w, s, r);
      ResolveLog(w, Created(s, r), |s.recs|, s.recs[q].result, Settle(OutcomeKind(s.recs[q])));
    }
  }

  lemma CancelLog(w: nat -> nat, s: State, q: nat, e: int)
    requires Ok(w, s) && q < |s.recs| && !s.recs[q].flags.proto
    ensures CanResolve(w, Canceling(s, q), q, Error(e))
    ensures s.log <= ResolveF(w, Canceling(s, q), q, Error(e), Cancel).log
  {
    CancelingOk(w, s, q);
    ResolveLog(w, Canceling(s, q), q, Error(e), Cancel);
  }

  lemma StepLog(s: State, op: Op)
    requires Good(s) && Legal(s, op)
    ensures s.log <= Step(s, op).log
  {
    var w := Weights(s);
    assert Ok(w, s);
    hide Good, Ok, ResolveF, CloneF, FinishF, SettleF, ThenF;
    match op
    case Then(q, done, fail) => ThenLog(w, s, q, done, fail);
    case Forget(q, h) => SlotsOk(w, s, q);
    case ForgetNamed(q, name) => SlotsOk(w, s, q);
    case Finish(q, kind, v) => FinishLog(w, s, q, v, Settle(kind));
    case UserFinish(q, kind, v) => FinishLog(w, s, q, v, Settle(kind));
    case Invoke(q, v) => FinishLog(w, s, q, v, Settle(Done));
    case CancelWith(q, e) => if !Finished(s.recs[q]) { CancelLog(w, s, q, e); }
    case _ =>
  }

  lemma StepLasts(s: State, op: Op)
    requires Good(s) && Legal(s, op)
    ensures Lasts(s, Step(s, op))
  {
    StepLog(s, op);
    StepAdvances(s, op);
    hide Step, Good, Legal;
    forall i | 0 <= i < |s.recs| ensures LastsAt(s, Step(s, op), i) {
      if Finished(s.recs[i]) { StepSame(s, op, i); }
    }
  }

  /** From operation `j` to `k` nobody interferes with the handler `x` of `p`. */
  ghost predicate LeftAlone(trace: seq<State>, ops: seq<Op>, j: nat, k: nat, p: nat, x: nat)
    requires j <= k <= |ops| < |trace|
  {
    forall i | j <= i < k :: x < |trace[i].recs| && !Interferes(trace[i], ops[i], p, x)
  }

  lemma PassedStep(s: State, s1: State, out: State, p: nat, x: nat)
    requires Passed(s, s1, p, x) && s.log <= s1.log && |s.gens| <= |s1.gens| && Lasts(s1, out)
    requires Bound(s1, p, x) ==> Passed(s1, out, p, x)
    ensures Passed(s, out, p, x)
  {
    hide Listed, Given;
    var r := s1.recs[p];
    if r.flags.done || r.flags.failed {
      assert LastsAt(s1, out, p);
      var sig := Settle(if r.flags.done then Done else Failed);
      GivenLasts(s.recs[x], s.recs[x], x, sig, r.result, s, s, s1, out);
    } else {
      var r' := out.recs[p];
      if r'.flags.done || r'.flags.failed {
        var sig := Settle(if r'.flags.done then Done else Failed);
        GivenFrom(s1.recs[x], s.recs[x], x, sig, r'.result, s, s1, out);
      } else {
        StillTrans(s, s1, out, x);
      }
    }
  }

  /** Over any run, whatever settles `p` and whenever: each of its handlers that is in no other slots and is
      left alone has been given the outcome of `p` when `p` has settled, and is waiting until then. */
  lemma {:induction false} RunPasses(trace: seq<State>, ops: seq<Op>, j: nat, k: nat, p: nat, x: nat)
    requires IsRun(trace, ops) && j <= k <= |ops| && Bound(trace[j], p, x) && LeftAlone(trace, ops, j, k, p, x)
    ensures Passed(trace[j], trace[k], p, x) && Lasts(trace[j], trace[k])
    decreases k
  {
    if j == k {
      PassedNow(trace[j], p, x);
    } else {
      RunPasses(trace, ops, j, k - 1, p, x);
      RunGood(trace, ops, k - 1);
      assert StepsTo(trace, ops, k - 1);
      var s1, op := trace[k - 1], ops[k - 1];
      StepLasts(s1, op);
      hide Step, Good, Legal, Passed, Bound, Interferes;
      if Bound(s1, p, x) { StepPasses(s1, op, p, x); }
      PassedStep(trace[j], s1, trace[k], p, x);
      LastsTrans(trace[j], s1, trace[k]);
    }
  }

  lemma LastsTrans(a: State, b: State, c: State)
    requires Lasts(a, b) && Lasts(b, c)
    ensures Lasts(a, c)
  {
    forall i | 0 <= i < |a.recs| ensures LastsAt(a, c, i) { assert LastsAt(a, b, i) && LastsAt(b, c, i); }
  }
}
