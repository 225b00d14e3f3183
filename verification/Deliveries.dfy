/** A promise's handlers get its outcome. */
module Deliveries {
  import opened Values
  import opened Engine
  import opened Cloning
  import opened Delivery
  import opened Permanence
  import opened Operations
  import opened Graph
  import opened Runs
  import opened Firing
  import opened Births
  import opened Activations
  import Sequences

  // ---- What was given stays given -------------------------------------------------------------

  /** Nothing that is settled or logged is taken back. */
  ghost predicate Onward(s: State, s': State) {
    Kept(s, s') && s.log <= s'.log && |s.gens| <= |s'.gens|
  }

  lemma OnwardTrans(a: State, b: State, c: State)
    requires Onward(a, b) && Onward(b, c)
    ensures Onward(a, c)
  {
    hide Kept;
    KeptTrans(a, b, c);
  }

  lemma SinceWider(b0: seq<Event>, b: seq<Event>, a: seq<Event>, a': seq<Event>, e: Event)
    requires b0 <= b && a <= a' && Since(b, a, e)
    ensures Since(b0, a', e)
  {
    var k :| |b| <= k < |a| && a[k] == e;
    assert a'[k] == e;
  }

  /** What is settled has kept its outcome, and what is logged stays logged. */
  ghost predicate Lasts(s: State, s': State) {
    && |s.recs| <= |s'.recs| && s.log <= s'.log && |s.gens| <= |s'.gens|
    && forall i | 0 <= i < |s.recs| :: LastsAt(s, s', i)
  }

  predicate LastsAt(s: State, s': State, i: nat)
    requires i < |s.recs| <= |s'.recs|
  {
    Finished(s.recs[i]) ==>
      && s'.recs[i].result == s.recs[i].result
      && s'.recs[i].flags.done == s.recs[i].flags.done && s'.recs[i].flags.failed == s.recs[i].flags.failed
  }

  lemma OnwardLasts(s: State, s': State)
    requires Onward(s, s')
    ensures Lasts(s, s')
  {
    forall i | 0 <= i < |s.recs| ensures LastsAt(s, s', i) { assert KeptAt(s, s', i); }
  }

  lemma GivenWider(r: Rec, r': Rec, p: nat, sig: Signal, v: Value, s0: State, s: State, out: State, out': State)
    requires Given(r, p, sig, v, s, out) && Onward(out, out')
    requires s0.log <= s.log && |s0.gens| <= |s.gens|
    requires r'.await.Some? == r.await.Some? && r'.gen == r.gen
    requires r'.done == r.done && r'.fail == r.fail && r'.canceler == r.canceler
    ensures Given(r', p, sig, v, s0, out')
  {
    OnwardLasts(out, out');
    hide Kept, Given;
    GivenLasts(r, r', p, sig, v, s0, s, out, out');
  }

  /** The states around a gift may be farther apart. */
  lemma GivenLasts(r: Rec, r': Rec, p: nat, sig: Signal, v: Value, s0: State, s: State, out: State, out': State)
    requires Given(r, p, sig, v, s, out) && Lasts(out, out')
    requires s0.log <= s.log && |s0.gens| <= |s.gens|
    requires r'.await.Some? == r.await.Some? && r'.gen == r.gen
    requires r'.done == r.done && r'.fail == r.fail && r'.canceler == r.canceler
    ensures Given(r', p, sig, v, s0, out')
  {
    if p < |out.recs| { assert LastsAt(out, out', p); }
    if r.await.None? {
      TakenLasts(Asked(r, sig), p, sig, v, s0, s, out, out');
    } else if r.gen.Some? && (v.Gen? ==> v.g < |s0.gens|) {
      SinceWider(s0.log, s.log, out.log, out'.log, Resumption(r.gen.value, v, sig == Settle(Done)));
    }
  }

  lemma TakenLasts(cb: Callback, p: nat, sig: Signal, v: Value, s0: State, s: State, out: State, out': State)
    requires Taken(cb, p, sig, v, s, out) && Lasts(out, out')
    requires s0.log <= s.log && |s0.gens| <= |s.gens|
    ensures Taken(cb, p, sig, v, s0, out')
  {
    if p < |out.recs| { assert LastsAt(out, out', p); }
    if !Declines(cb, v) {
      match Reply(cb, v)
      case Returns(x) => SinceWider(s0.log, s.log, out.log, out'.log, Called(p, sig, v, None));
      case Raises(e) => SinceWider(s0.log, s.log, out.log, out'.log, Called(p, sig, v, None));
      case Fresh(sc) =>
        var g: nat :| |s.gens| <= g && Since(s.log, out.log, Called(p, sig, v, Some(Creation(g, sc))));
        SinceWider(s0.log, s.log, out.log, out'.log, Called(p, sig, v, Some(Creation(g, sc))));
    }
  }

  lemma ResolveOnward(w: nat -> nat, s: State, h: nat, data: Value, sig: Signal)
    requires CanResolve(w, s, h, data)
    ensures Onward(s, ResolveF(w, s, h, data, sig))
  {
    ResolveKept(w, s, h, data, sig);
    ResolveLog(w, s, h, data, sig);
    ResolveAdvances(w, s, h, data, sig);
  }

  lemma OneOnward(w: nat -> nat, s: State, h: nat, v: Value, sig: Signal)
    requires Ok(w, s) && !v.Prom? && h < |s.recs|
    ensures Onward(s, DeliverOne(w, s, h, v, sig))
  {
    OneKept(w, s, h, v, sig);
    OneLog(w, s, h, v, sig);
    OneAdvances(w, s, h, v, sig);
  }

  lemma DeliverOnward(w: nat -> nat, s: State, hs: seq<nat>, v: Value, sig: Signal)
    requires CanDeliver(w, s, hs, v)
    ensures Onward(s, DeliverF(w, s, hs, v, sig))
  {
    DeliverKept(w, s, hs, v, sig);
    DeliverLog(w, s, hs, v, sig);
    DeliverAdvances(w, s, hs, v, sig);
  }

  lemma CloneOnward(w: nat -> nat, s: State, t: nat)
    requires Ok(w, s) && IsProto(s, t)
    ensures Onward(s, CloneF(w, s, t))
  {
    CloneKept(w, s, t);
    CloneLog(w, s, t);
    CloneAdvances(w, s, t);
  }

  lemma DropOnward(w: nat -> nat, s: State, x: nat)
    requires Ok(w, s) && x < |s.recs|
    ensures Onward(s, Drop(s, x))
  {
    DropKept(w, s, x);
  }

  lemma ClosedOnward(w: nat -> nat, s: State, p: nat, run: Run)
    requires Ok(w, s) && p < |s.recs| && CanDrive(s, p) && run.Settles? && RunOk(s.recs, |s.gens|, run)
    requires !Finished(s.recs[p]) && !s.recs[p].flags.proto && s.log <= run.log
    ensures Onward(s, Closed(s, p, run))
  {
    ClosedKept(w, s, p, run);
  }

  // ---- Slots are neither lost nor doubled by cloning ------------------------------------------

  lemma ListedClean(s: State, t: nat)
    requires t < |s.recs|
    ensures TryClean(s, t).recs == s.recs
  {
  }

  /** From `s` to `out` the promises that existed keep their number of slots; a new promise has one slot,
      but for the new promise `top`, which has none. */
  ghost predicate SlotsSpread(s: State, out: State, top: nat, x: nat) {
    && |s.recs| <= |out.recs|
    && (x < |s.recs| ==> Listed(out.recs, x) == Listed(s.recs, x))
    && (|s.recs| <= x < |out.recs| ==> Listed(out.recs, x) == if x == top then 0 else 1)
  }

  /** Cloning keeps the number of slots of every promise, and puts every nested clone into one slot. */
  lemma {:induction false} CloneListed(w: nat -> nat, s: State, t: nat, x: nat)
    requires Ok(w, s) && IsProto(s, t)
    ensures SlotsSpread(s, CloneF(w, s, t), |s.recs|, x)
    decreases w(t), |s.recs[t].handlers| + 1
  {
    var s1 := s.(recs := s.recs + [Blank(s.recs[t])]);
    CloneUnfolds(w, s, t);
    assert s1.recs[..|s.recs|] == s.recs;
    if x >= |s.recs| { NewUnlisted(w, s, x); }
    SlotsListed(w, s1, t, |s.recs|, 0, x);
    ListedClean(CloneSlots(w, s1, t, |s.recs|, 0), t);
  }

  lemma {:induction false} SlotsListed(w: nat -> nat, s: State, t: nat, c: nat, k: nat, x: nat)
    requires Cloneable(w, s, t, c, k)
    ensures SlotsSpread(s, CloneSlots(w, s, t, c, k), c, x)
    decreases w(t), |s.recs[t].handlers| - k
  {
    var hs := s.recs[t].handlers;
    hide Ok, MoveSlot, Listed;
    if k < |hs| {
      SlotLighter(w, s, t, k);
      if IsProto(s, hs[k]) {
        var s1 := CloneF(w, s, hs[k]);
        var s2 := s1.(recs := PushSlot(s1.recs, c, |s.recs|));
        NestedOk(w, s, t, c, k, s1, s2);
        NestedUnfolds(w, s, t, c, k, s2);
        hide CloneSlots, SlotsSpread;
        CloneListed(w, s, hs[k], x);
        SlotsListed(w, s2, t, c, k + 1, x);
        NestedCount(s, s1, CloneSlots(w, s2, t, c, k + 1), c, x);
      } else {
        var s2 := s.(recs := MoveSlot(s.recs, t, c, k));
        MoveOk(w, s, t, c, k, s2);
        MovedListed(s.recs, t, c, k, x);
        MovedUnfolds(w, s, t, c, k, s2);
        hide CloneSlots;
        SlotsListed(w, s2, t, c, k, x);
      }
    }
  }

  lemma NestedCount(s: State, s1: State, out: State, c: nat, x: nat)
    requires SlotsSpread(s, s1, |s.recs|, x) && c < |s.recs| < |s1.recs|
    requires SlotsSpread(s1.(recs := PushSlot(s1.recs, c, |s.recs|)), out, c, x)
    ensures SlotsSpread(s, out, c, x)
  {
    ListedUpdate(s1.recs, c, PushSlot(s1.recs, c, |s.recs|)[c], x);
    hide Listed;
  }

  // ---- Promises that are not in anybody's slots -----------------------------------------------

  predicate Open(s: State, x: nat) { x < |s.recs| && !s.recs[x].flags.proto && !Finished(s.recs[x]) }

  /** Nothing has happened to `x`, but for its handlers, its references and its name. */
  ghost predicate Still(s: State, s': State, x: nat) {
    && x < |s.recs| && x < |s'.recs| && Listed(s'.recs, x) == Listed(s.recs, x)
    && var r, r' := s.recs[x], s'.recs[x];
       r' == r.(handlers := r'.handlers, refs := r'.refs, name := r'.name)
  }

  lemma StillTrans(a: State, b: State, c: State, x: nat)
    requires Still(a, b, x) && Still(b, c, x)
    ensures Still(a, c, x)
  {
  }

  lemma DropStill(s: State, i: nat, x: nat)
    requires i < |s.recs| && x < |s.recs|
    ensures Still(s, Drop(s, i), x)
  {
    ListedSame(s.recs, Drop(s, i).recs, x);
  }

  lemma WaitingStill(s: State, h: nat, run: Run, x: nat)
    requires CanDrive(s, h) && run.Suspends? && run.q < |s.recs| && x < |s.recs| && h != x
    ensures Still(s, Waiting(s, h, run), x)
  {
    WaitingFields(s, h, run, x);
    WaitingListed(s, h, run, x);
  }

  /** Closing another promise that does not have `x` among its handlers. */
  lemma ClosedStill(s: State, h: nat, run: Run, x: nat)
    requires CanDrive(s, h) && run.Settles? && x < |s.recs| && h != x && multiset(s.recs[h].handlers)[x] == 0
    ensures Still(s, Closed(s, h, run), x)
  {
    ClosedFields(s, h, run, x);
    ClosedListed(s, h, run, x);
  }

  /** No prototype has `x` among its handlers. */
  ghost predicate Off(s: State, x: nat) {
    forall i | 0 <= i < |s.recs| && s.recs[i].flags.proto :: x !in s.recs[i].handlers
  }

  lemma CloneStill(w: nat -> nat, s: State, t: nat, x: nat)
    requires Ok(w, s) && IsProto(s, t) && Open(s, x) && Off(s, x)
    ensures Still(s, CloneF(w, s, t), x)
  {
    assert RecOk(w, s, x);
    var out, r := CloneF(w, s, t), s.recs[x];
    CloneListed(w, s, t, x);
    assert FrameAt(w, s, out, x, w(t), |s.recs|);
    if r.await.Some? {
      var q := r.await.value;
      assert RecOk(w, s, q);
      Sequences.CloneAwait(w, s, t, x, q);
    }
  }

  lemma OffListed(s: State, x: nat)
    requires Listed(s.recs, x) == 0
    ensures Off(s, x)
  {
    forall i | 0 <= i < |s.recs| ensures x !in s.recs[i].handlers { ListedAtLeast(s.recs, i, x); }
  }

  lemma {:induction false} ResolveStill(w: nat -> nat, s: State, h: nat, data: Value, sig: Signal, x: nat)
    requires CanResolve(w, s, h, data) && Open(s, x) && Listed(s.recs, x) == 0 && h != x
    ensures Still(s, ResolveF(w, s, h, data, sig), x)
    decreases Load(w, s.recs), 0
  {
    if Finished(s.recs[h]) {
      ResolveStops(w, s, h, data, sig);
    } else {
      ResolveUnfolds(w, s, h, data, sig);
      var run, hs: seq<nat> := Drive(s, h, data, sig), s.recs[h].handlers;
      ListedAtLeast(s.recs, h, x);
      assert x !in hs;
      hide Ok, ResolveF, Drive, Load, Listed;
      if run.Suspends? {
        WaitingStill(s, h, run, x);
      } else {
        ClosedStill(s, h, run, x);
        DeliverStill(w, Closed(s, h, run), hs, run.v, Settle(run.kind), x);
        StillTrans(s, Closed(s, h, run), DeliverF(w, Closed(s, h, run), hs, run.v, Settle(run.kind)), x);
      }
    }
  }

  lemma {:induction false} OneStill(w: nat -> nat, s: State, h: nat, v: Value, sig: Signal, x: nat)
    requires Ok(w, s) && !v.Prom? && h < |s.recs| && Open(s, x) && Listed(s.recs, x) == 0 && h != x
    ensures Still(s, DeliverOne(w, s, h, v, sig), x)
    decreases Load(w, s.recs) + w(h), 1
  {
    OneUnfolds(w, s, h, v, sig);
    OffListed(s, x);
    hide Ok, ResolveF, DeliverOne, CloneF, Load, Listed, Off;
    if IsProto(s, h) {
      var s1 := CloneF(w, s, h);
      CloneStill(w, s, h, x);
      DropStill(s1, h, x);
      ResolveStill(w, Drop(s1, h), |s.recs|, v, sig, x);
      DropStill(ResolveF(w, Drop(s1, h), |s.recs|, v, sig), |s.recs|, x);
    } else {
      ResolveStill(w, s, h, v, sig, x);
      DropStill(ResolveF(w, s, h, v, sig), h, x);
    }
  }

  lemma StillOpen(s: State, s1: State, x: nat)
    requires Still(s, s1, x) && Open(s, x) && Listed(s.recs, x) == 0
    ensures Open(s1, x) && Listed(s1.recs, x) == 0
  {
  }

  lemma {:induction false} DeliverStill(w: nat -> nat, s: State, hs: seq<nat>, v: Value, sig: Signal, x: nat)
    requires CanDeliver(w, s, hs, v) && Open(s, x) && Listed(s.recs, x) == 0 && x !in hs
    ensures Still(s, DeliverF(w, s, hs, v, sig), x)
    decreases Load(w, s.recs) + SlotCost(hs, w), 2 + |hs|
  {
    if hs != [] {
      DeliverUnfolds(w, s, hs, v, sig);
      var s1 := DeliverOne(w, s, hs[0], v, sig);
      OneStill(w, s, hs[0], v, sig, x);
      StillOpen(s, s1, x);
      hide DeliverOne, DeliverF, Load, Listed, SlotCost, Still, Open, Ok;
      DeliverStill(w, s1, hs[1..], v, sig, x);
      StillTrans(s, s1, DeliverF(w, s1, hs[1..], v, sig), x);
    }
  }

  // ---- The loop gives the outcome to each handler ---------------------------------------------

  /** One turn of the loop gives the value to an ordinary handler. */
  lemma OneGives(w: nat -> nat, s: State, x: nat, v: Value, sig: Signal)
    requires Ok(w, s) && !v.Prom? && Open(s, x)
    ensures Given(s.recs[x], x, sig, v, s, DeliverOne(w, s, x, v, sig))
  {
    OneUnfolds(w, s, x, v, sig);
    var s1 := ResolveF(w, s, x, v, sig);
    ResolveGives(w, s, x, v, sig);
    DropOnward(w, s1, x);
    GivenWider(s.recs[x], s.recs[x], x, sig, v, s, s, s1, Drop(s1, x));
  }

  /** A pending handler that nobody else lists is given the value in its turn. */
  lemma {:induction false} DeliverGives(w: nat -> nat, s: State, hs: seq<nat>, v: Value, sig: Signal, x: nat)
    requires CanDeliver(w, s, hs, v) && Open(s, x) && Listed(s.recs, x) == 0 && x in hs
    ensures Given(s.recs[x], x, sig, v, s, DeliverF(w, s, hs, v, sig))
    decreases |hs|
  {
    DeliverUnfolds(w, s, hs, v, sig);
    var s1 := DeliverOne(w, s, hs[0], v, sig);
    OneOnward(w, s, hs[0], v, sig);
    hide DeliverOne, Load, Listed, Ok, Given, Kept;
    if hs[0] == x {
      OneGives(w, s, x, v, sig);
      DeliverOnward(w, s1, hs[1..], v, sig);
      GivenWider(s.recs[x], s.recs[x], x, sig, v, s, s, s1, DeliverF(w, s1, hs[1..], v, sig));
    } else {
      OneStill(w, s, hs[0], v, sig, x);
      DeliverGives(w, s1, hs[1..], v, sig, x);
      GivenFrom(s1.recs[x], s.recs[x], x, sig, v, s, s1, DeliverF(w, s1, hs[1..], v, sig));
    }
  }

  lemma GivenFrom(r: Rec, r': Rec, p: nat, sig: Signal, v: Value, s0: State, s: State, out: State)
    requires Given(r, p, sig, v, s, out)
    requires s0.log <= s.log && |s0.gens| <= |s.gens|
    requires r'.await.Some? == r.await.Some? && r'.gen == r.gen
    requires r'.done == r.done && r'.fail == r.fail && r'.canceler == r.canceler
    ensures Given(r', p, sig, v, s0, out)
  {
    SelfKept(out);
    GivenWider(r, r', p, sig, v, s0, s, out, out);
  }

  // ---- And to a copy of each nested sequence --------------------------------------------------

  /** One turn of the loop makes a new promise from a prototype, and gives it the value. */
  lemma OneGivesCopy(w: nat -> nat, s: State, h: nat, v: Value, kind: Kind)
    requires Ok(w, s) && !v.Prom? && IsProto(s, h)
    ensures Taken(Asked(s.recs[h], Settle(kind)), |s.recs|, Settle(kind), v, s, DeliverOne(w, s, h, v, Settle(kind)))
  {
    var s1, c, sig := CloneF(w, s, h), |s.recs|, Settle(kind);
    OneUnfolds(w, s, h, v, sig);
    Sequences.CloneShape(w, s, h);
    CloneOnward(w, s, h);
    var s2 := Drop(s1, h);
    var s3 := ResolveF(w, s2, c, v, sig);
    assert CanResolve(w, s2, c, v) && !Finished(s2.recs[c]) && s2.recs[c].await.None?;
    assert Asked(s2.recs[c], sig) == Asked(s.recs[h], sig);
    hide CloneF, Kept, Taken, Asked, Lasts, Ok;
    ResolveGives(w, s2, c, v, sig);
    hide ResolveF;
    DropOnward(w, s3, c);
    OnwardLasts(s3, Drop(s3, c));
    TakenLasts(Asked(s.recs[h], sig), c, sig, v, s, s2, s3, Drop(s3, c));
  }

  lemma {:induction false} DeliverGivesCopy(w: nat -> nat, s: State, hs: seq<nat>, v: Value, kind: Kind, h: nat)
    returns (c: nat)
    requires CanDeliver(w, s, hs, v) && h in hs && IsProto(s, h)
    ensures c >= |s.recs|
    ensures Taken(Asked(s.recs[h], Settle(kind)), c, Settle(kind), v, s, DeliverF(w, s, hs, v, Settle(kind)))
    decreases |hs|
  {
    var sig := Settle(kind);
    DeliverUnfolds(w, s, hs, v, sig);
    var s1 := DeliverOne(w, s, hs[0], v, sig);
    OneOnward(w, s, hs[0], v, sig);
    DeliverOnward(w, s1, hs[1..], v, sig);
    var out := DeliverF(w, s1, hs[1..], v, sig);
    assert IsProto(s1, h) && Asked(s1.recs[h], sig) == Asked(s.recs[h], sig) by {
      assert KeptAt(s, s1, h);
    }
    hide DeliverOne, DeliverF, Ok, Taken, Kept, Lasts, Load, SlotCost, Asked;
    if hs[0] == h {
      c := |s.recs|;
      OneGivesCopy(w, s, h, v, kind);
      OnwardLasts(s1, out);
      TakenLasts(Asked(s.recs[h], sig), c, sig, v, s, s, s1, out);
    } else {
      c := DeliverGivesCopy(w, s1, hs[1..], v, kind, h);
      OnwardLasts(out, out) by { SelfKept(out); }
      TakenLasts(Asked(s.recs[h], sig), c, sig, v, s, s1, out, out);
    }
  }

  /** When a promise settles, each nested sequence in its slots gives the outcome to a new promise. */
  lemma ResolveGivesCopies(w: nat -> nat, s: State, p: nat, data: Value, sig: Signal, j: nat) returns (c: nat)
    requires CanResolve(w, s, p, data) && !Finished(s.recs[p]) && j < |s.recs[p].handlers|
    requires IsProto(s, s.recs[p].handlers[j])
    requires var r := ResolveF(w, s, p, data, sig).recs[p]; r.flags.done || r.flags.failed
    ensures var out, h := ResolveF(w, s, p, data, sig), s.recs[p].handlers[j];
            var r := out.recs[p];
            c >= |s.recs|
            && if r.flags.done then Taken(s.recs[h].done, c, Settle(Done), r.result, s, out)
               else Taken(s.recs[h].fail, c, Settle(Failed), r.result, s, out)
  {
    ResolveUnfolds(w, s, p, data, sig);
    DriveLog(s, p, data, sig);
    RunShows(w, s, p, data, sig);
    var run, hs: seq<nat> := Drive(s, p, data, sig), s.recs[p].handlers;
    if run.Suspends? { WaitingFields(s, p, run, p); }
    var s1, out := Closed(s, p, run), ResolveF(w, s, p, data, sig);
    ClosedFields(s, p, run, hs[j]);
    ClosedOnward(w, s, p, run);
    hide Closed, ResolveF, Drive, Ok, Taken, Kept;
    c := DeliverGivesCopy(w, s1, hs, run.v, run.kind, hs[j]);
    OnwardLasts(out, out) by { SelfKept(out); }
    TakenLasts(Asked(s.recs[hs[j]], Settle(run.kind)), c, Settle(run.kind), run.v, s, s1, out, out);
  }
}
