/** What each operation does, field by field. */
module Effects {
  import opened Values
  import opened Engine
  import opened Cloning
  import opened Delivery
  import opened Permanence
  import opened Operations
  import opened Graph
  import opened Runs
  import opened Firing
  import opened Births
  import opened Coroutines
  import opened Agreement
  import opened Activations
  import opened Generators
  import opened Deliveries
  import opened Passing
  import opened Trees
  import Sequences

  // ---- Settling ---------------------------------------------------------------------------------

  /** The value given to done or fail is what the promise gets; a settled promise is left alone. */
  lemma FinishGives(s: State, p: nat, kind: Kind, v: Value)
    requires Good(s) && Legal(s, Finish(p, kind, v)) && !s.recs[p].flags.proto
    ensures var out := Step(s, Finish(p, kind, v));
            if s.recs[p].flags.done || s.recs[p].flags.failed then out == s
            else Given(s.recs[p], p, Settle(kind), v, s, out)
  {
    var w := Weights(s);
    if Finished(s.recs[p]) { ResolveStops(w, s, p, v, Settle(kind)); } else { ResolveGives(w, s, p, v, Settle(kind)); }
  }

  /** User code settles a promise that is pending, not internal, not waiting and runs no generator. */
  lemma UserFinishGives(s: State, p: nat, kind: Kind, v: Value)
    requires Good(s) && Legal(s, UserFinish(p, kind, v))
    ensures var r, out := s.recs[p], Step(s, UserFinish(p, kind, v));
            if r.flags.done || r.flags.failed || r.flags.isInternal || r.await.Some? || r.gen.Some? then out == s
            else out == Step(s, Finish(p, kind, v)) && (!r.flags.proto ==> Given(r, p, Settle(kind), v, s, out))
  {
    if UserMayFinish(s.recs[p]) && !s.recs[p].flags.proto { FinishGives(s, p, kind, v); }
  }

  /** Settling a promise without a callback for it. */
  lemma FinishPlain(s: State, p: nat, kind: Kind, v: Value)
    requires Good(s) && Legal(s, Finish(p, kind, v))
    requires var r := s.recs[p];
             && !r.flags.proto && !r.flags.done && !r.flags.failed && r.await.None?
             && (if kind.Done? then r.done else r.fail).Unset?
    ensures var r := Step(s, Finish(p, kind, v)).recs[p];
            r.result == v && r.flags.done == kind.Done? && r.flags.failed == kind.Failed?
  {
    FinishGives(s, p, kind, v);
  }

  /** A tree of handlers that answer at once is evaluated with the value given to its root. */
  lemma FinishTree(s: State, t: Tree, kind: Kind, v: Value)
    requires Good(s) && Shape(s, t) && !v.Prom? && PlainTree(t, v, kind, |s.gens|)
    ensures var out := Step(s, Finish(t.id, kind, v));
            Evaluated(out, t, v, kind) && out.log == s.log + Trace(t, v, kind) && Touches(s, out, Ids(t))
    ensures !s.recs[t.id].flags.isInternal ==>
              Step(s, UserFinish(t.id, kind, v)) == Step(s, Finish(t.id, kind, v))
  {
    var w := Weights(s);
    hide ResolveF, Good;
    ResolveTree(w, s, t, v, kind);
  }

  /** A generator function that done or fail calls is run as a coroutine. */
  lemma FinishRuns(s: State, kind: Kind, v: Value, co: Coro, sc: Script)
    requires Good(s) && Legal(s, Finish(co.p, kind, v)) && !s.recs[co.p].flags.proto && !Fired(s.recs[co.p])
    requires Makes(Asked(s.recs[co.p], Settle(kind)), v, sc) && co.g == |s.gens|
    requires AgreesOn(s.recs, co.ids, co.res) && InRecs(s.recs, co.ids) && co.m <= |s.gens| && Names(sc, co.ids, co.m)
    ensures Generators.Runs(s, Step(s, Finish(co.p, kind, v)), co, sc)
  {
    GeneratorRuns(Weights(s), s, v, Settle(kind), co, sc);
  }

  // ---- Cancelling -------------------------------------------------------------------------------

  /** Cancelling marks an unsettled deferred and gives the error to its canceler; without one, or when it
      declines or throws, the deferred ends FAILED.  Only what the canceler returns ends it otherwise. */
  lemma CancelGives(s: State, p: nat, e: int)
    requires Good(s) && Legal(s, CancelWith(p, e))
    ensures var r, out := s.recs[p], Step(s, CancelWith(p, e));
            if r.flags.done || r.flags.failed then out == s
            else
              && p < |out.recs| && out.recs[p].flags.canceled && Given(r, p, Cancel, Error(e), s, out)
              && (r.await.None? && (r.canceler.Unset? || Declines(r.canceler, Error(e))) ==>
                    SettledAs(out, p, Error(e), false))
  {
    var w, s1 := Weights(s), Canceling(s, p);
    if !Finished(s.recs[p]) {
      CancelingOk(w, s, p);
      ResolveGives(w, s1, p, Error(e), Cancel);
      ResolveOnward(w, s1, p, Error(e), Cancel);
      var out := ResolveF(w, s1, p, Error(e), Cancel);
      assert KeptAt(s1, out, p);
      hide Given, Kept;
      GivenFrom(s1.recs[p], s.recs[p], p, Cancel, Error(e), s, s1, out);
    }
  }

  // ---- Attaching --------------------------------------------------------------------------------

  /** A new handler of an unsettled promise: its callbacks in their places, in the last slot. */
  lemma ThenPending(s: State, p: nat, done: Callback, fail: Callback)
    requires Good(s) && Legal(s, Then(p, done, fail)) && !s.recs[p].flags.done && !s.recs[p].flags.failed
    ensures var out, h := Step(s, Then(p, done, fail)), |s.recs|;
            && |out.recs| == h + 1 && out.gens == s.gens && out.log == s.log
            && out.recs[p] == s.recs[p].(handlers := s.recs[p].handlers + [h])
            && (forall i | 0 <= i < h && i != p :: out.recs[i] == s.recs[i])
            && out.recs[h].done == done && out.recs[h].fail == fail && out.recs[h].canceler.Unset?
            && out.recs[h].refs == 2 && !Fired(out.recs[h]) && out.recs[h].handlers == []
            && out.recs[h].flags.proto == s.recs[p].flags.proto
  {
  }

  /** A new handler of a settled promise answers at once: the callback for that outcome is asked. */
  lemma ThenSettled(s: State, p: nat, done: Callback, fail: Callback)
    requires Good(s) && Legal(s, Then(p, done, fail)) && (s.recs[p].flags.done || s.recs[p].flags.failed)
    ensures var out, r := Step(s, Then(p, done, fail)), s.recs[p];
            var sig := Settle(if r.flags.done then Done else Failed);
            Taken(if r.flags.done then done else fail, |s.recs|, sig, r.result, s, out)
  {
    var w, r := Weights(s), Pending(done, fail, Callback.Unset, PlainFlags(IsProto(s, p)));
    assert RecOk(w, s, p);
    CreatedOk(w, s, r);
    var s1, sig, v := Created(s, r), Settle(OutcomeKind(s.recs[p])), s.recs[p].result;
    ResolveGives(w, s1, |s.recs|, v, sig);
  }

  /** An existing promise takes the last slot of another, and gains two references. */
  lemma AppendEffect(s: State, p: nat, h: nat)
    requires Good(s) && Legal(s, Append(p, h))
    ensures var out := Step(s, Append(p, h));
            if p == h then out == s
            else
              && |out.recs| == |s.recs| && out.gens == s.gens && out.log == s.log
              && out.recs[p] == s.recs[p].(handlers := s.recs[p].handlers + [h])
              && out.recs[h] == s.recs[h].(refs := s.recs[h].refs + 2)
              && forall i | 0 <= i < |s.recs| && i != p && i != h :: out.recs[i] == s.recs[i]
  {
  }

  /** A new promise has the callbacks it was made with and one reference; nothing else changes. */
  lemma NewEffect(s: State, done: Callback, fail: Callback, canceler: Callback, flags: Flags)
    requires Good(s) && Legal(s, New(done, fail, canceler, flags))
    ensures var out := Step(s, New(done, fail, canceler, flags));
            out == s.(recs := s.recs + [Rec(flags, done, fail, canceler, None, None, Null, [], None, 1)])
  {
  }

  // ---- Forgetting -------------------------------------------------------------------------------

  /** Some elements of `b` in their order. */
  predicate Within(a: seq<nat>, b: seq<nat>) {
    a == [] || (b != [] && ((a[0] == b[0] && Within(a[1..], b[1..])) || Within(a, b[1..])))
  }

  lemma {:induction false} FilterWithin(hs: seq<nat>, drop: nat -> bool)
    ensures Within(Filter(hs, drop), hs)
  {
    if hs != [] {
      FilterWithin(hs[1..], drop);
      var rest := Filter(hs[1..], drop);
      assert ([hs[0]] + rest)[1..] == rest && [] + rest == rest;
    }
  }

  /** The slots of `p` whose handlers are to go are gone, the others stay in order; the hook of an emptied
      container has run. */
  ghost predicate Forgotten(s: State, out: State, p: nat, gone: set<nat>) {
    && p < |s.recs| == |out.recs| && out.gens == s.gens
    && (forall i | 0 <= i < |s.recs| ::
          out.recs[i] == s.recs[i].(refs := out.recs[i].refs, handlers := out.recs[i].handlers))
    && (forall i | 0 <= i < |s.recs| && i != p :: out.recs[i].handlers == s.recs[i].handlers)
    && var hs, hs' := s.recs[p].handlers, out.recs[p].handlers;
       && Within(hs', hs)
       && (forall x: nat :: multiset(hs')[x] == if x in gone then 0 else multiset(hs)[x])
       && out.log == s.log + if s.recs[p].flags.autoclean && hs' == [] && !s.recs[p].canceler.Unset?
                             then [Cleaned(p)] else []
  }

  lemma RemoveForgets(w: nat -> nat, s: State, p: nat, drop: nat -> bool, gone: set<nat>)
    requires SlotsInRange(s.recs, p) && forall x | 0 <= x < |s.recs| :: drop(x) <==> x in gone
    ensures Forgotten(s, RemoveWhere(s, p, drop), p, gone)
  {
    var hs: seq<nat>, out := s.recs[p].handlers, RemoveWhere(s, p, drop);
    ReleasedFields(w, s, hs, drop);
    FilterWithin(hs, drop);
    assert s.log + [] == s.log;
    forall x: nat ensures multiset(out.recs[p].handlers)[x] == if x in gone then 0 else multiset(hs)[x] {
      FilterCount(hs, drop, x);
      if x >= |s.recs| { assert x !in hs && multiset(hs)[x] == 0; }
    }
  }

  lemma ForgetEffect(s: State, p: nat, h: nat)
    requires Good(s) && Legal(s, Forget(p, h))
    ensures Forgotten(s, Step(s, Forget(p, h)), p, {h})
  {
    SlotsOk(Weights(s), s, p);
    RemoveForgets(Weights(s), s, p, IsHandler(h), {h});
  }

  lemma ForgetNamedEffect(s: State, p: nat, name: string)
    requires Good(s) && Legal(s, ForgetNamed(p, name))
    ensures Forgotten(s, Step(s, ForgetNamed(p, name)), p,
                      set x | 0 <= x < |s.recs| && s.recs[x].name == Some(name))
  {
    SlotsOk(Weights(s), s, p);
    RemoveForgets(Weights(s), s, p, HasName(s.recs, name), set x | 0 <= x < |s.recs| && s.recs[x].name == Some(name));
  }

  /** A name and a reference. */
  lemma SmallEffects(s: State, p: nat, name: string)
    requires Good(s)
    ensures Legal(s, SetName(p, name)) ==>
              Step(s, SetName(p, name)) == s.(recs := s.recs[p := s.recs[p].(name := Some(name))])
    ensures Legal(s, Release(p)) ==>
              Step(s, Release(p)) == s.(recs := s.recs[p := s.recs[p].(refs := s.recs[p].refs - 1)])
  {
  }

  // ---- Sequences --------------------------------------------------------------------------------

  /** Settling `t`, a sequence in `s`, with `(v, kind)` has come to `out`: the starter was asked by the clone
      `|s.recs|`. */
  ghost predicate Started(s: State, t: nat, v: Value, kind: Kind, out: State)
    requires t < |s.recs|
  {
    Taken(if kind.Done? then s.recs[t].done else s.recs[t].fail, |s.recs|, Settle(kind), v, s, out)
  }

  /** Handler `h` of the sequence has stood for promise `x`: a nested sequence for a new promise with its
      callbacks, any other handler for itself.  When the clone has settled, `x` has been given its outcome;
      until then it is a handler of the clone. */
  ghost predicate Reached(s: State, h: nat, x: nat, out: State) {
    var c := |s.recs|;
    && h < |s.recs| && c < |out.recs| && x < |out.recs| && (if s.recs[h].flags.proto then x > c else x == h)
    && var r := out.recs[c];
       if r.flags.done || r.flags.failed then
         Given(s.recs[h], x, Settle(if r.flags.done then Done else Failed), r.result, s, out)
       else Bound(out, c, x)
  }

  /** The clone has the starter of the sequence, and slot `i` of the clone is its own. */
  lemma CloneIsBound(w: nat -> nat, s: State, t: nat, i: nat)
    requires Ok(w, s) && IsProto(s, t) && i < |s.recs[t].handlers|
    requires var h := s.recs[t].handlers[i]; IsProto(s, h) || (Open(s, h) && Listed(s.recs, h) == 1)
    ensures Bound(CloneF(w, s, t), |s.recs|, Sequences.CopySlot(w, s, t, i))
  {
    var s1, c, h, x := CloneF(w, s, t), |s.recs|, s.recs[t].handlers[i], Sequences.CopySlot(w, s, t, i);
    Sequences.CloneShape(w, s, t);
    assert Sequences.CopyOf(s, h, s1, x);
    CloneListed(w, s, t, x);
    CloneListed(w, s, t, c);
    ListedAtLeast(s1.recs, c, x);
    assert x in s1.recs[c].handlers;
    assert RecOk(w, s1, c);
    if x == h { assert FrameAt(w, s, s1, h, w(t), c); }
  }

  /** What the promise in slot `i` of the clone is like. */
  lemma CopyIsLike(w: nat -> nat, s: State, t: nat, i: nat)
    requires Ok(w, s) && IsProto(s, t) && i < |s.recs[t].handlers|
    requires var h := s.recs[t].handlers[i]; IsProto(s, h) || Open(s, h)
    ensures var h, x := s.recs[t].handlers[i], Sequences.CopySlot(w, s, t, i);
            && h < |s.recs| && x < |CloneF(w, s, t).recs| && (if IsProto(s, h) then x >= |s.recs| else x == h)
            && var r, r' := s.recs[h], CloneF(w, s, t).recs[x];
               r'.done == r.done && r'.fail == r.fail
               && r'.await.Some? == r.await.Some? && (r.await.Some? ==> r'.gen == r.gen)
  {
    var s1, h, x := CloneF(w, s, t), s.recs[t].handlers[i], Sequences.CopySlot(w, s, t, i);
    Sequences.CloneShape(w, s, t);
    assert Sequences.CopyOf(s, h, s1, x);
    assert RecOk(w, s, t) && RecOk(w, s, h);
    if x == h { assert FrameAt(w, s, s1, h, w(t), |s.recs|); }
  }

  lemma GivenCopy(r: Rec, r': Rec, x: nat, kind: Kind, v: Value, s0: State, s: State, out: State)
    requires Given(r, x, Settle(kind), v, s, out) && s0.log <= s.log && |s0.gens| <= |s.gens|
    requires r'.done == r.done && r'.fail == r.fail
    requires r'.await.Some? == r.await.Some? && (r'.await.Some? ==> r'.gen == r.gen)
    ensures Given(r', x, Settle(kind), v, s0, out)
  {
    var r1 := r.(canceler := r'.canceler, gen := r'.gen);
    assert Given(r1, x, Settle(kind), v, s, out);
    GivenFrom(r1, r', x, Settle(kind), v, s0, s, out);
  }

  lemma FinishReaches(w: nat -> nat, s: State, t: nat, v: Value, kind: Kind, i: nat)
    requires Ok(w, s) && IsProto(s, t) && !v.Prom? && i < |s.recs[t].handlers|
    requires var h := s.recs[t].handlers[i]; IsProto(s, h) || (Open(s, h) && Listed(s.recs, h) == 1)
    ensures Reached(s, s.recs[t].handlers[i], Sequences.CopySlot(w, s, t, i), FinishF(w, s, t, v, Settle(kind)))
  {
    var s1, c, h, x := CloneF(w, s, t), |s.recs|, s.recs[t].handlers[i], Sequences.CopySlot(w, s, t, i);
    var out := FinishF(w, s, t, v, Settle(kind));
    CloneIsBound(w, s, t, i);
    CloneOnward(w, s, t);
    CopyIsLike(w, s, t, i);
    ResolvePasses(w, s1, c, v, Settle(kind), c, x);
    hide Ok, CloneF, ResolveF, Given, Kept, Listed, Sequences.CopySlot;
    var r := out.recs[c];
    if r.flags.done || r.flags.failed {
      GivenCopy(s1.recs[x], s.recs[h], x, if r.flags.done then Done else Failed, r.result, s, s1, out);
    }
  }

  lemma FinishStarts(w: nat -> nat, s: State, t: nat, v: Value, kind: Kind)
    requires Ok(w, s) && IsProto(s, t) && !v.Prom?
    ensures Started(s, t, v, kind, FinishF(w, s, t, v, Settle(kind)))
  {
    var s1, c, out := CloneF(w, s, t), |s.recs|, FinishF(w, s, t, v, Settle(kind));
    Sequences.CloneShape(w, s, t);
    CloneOnward(w, s, t);
    ResolveGives(w, s1, c, v, Settle(kind));
    OnwardLasts(out, out) by { SelfKept(out); }
    hide CloneF, ResolveF, Taken, Kept;
    TakenLasts(if kind.Done? then s.recs[t].done else s.recs[t].fail, c, Settle(kind), v, s, s1, out, out);
  }

  /** Invoking a sequence asks its starter with the argument and reaches each handler: nested sequences, and
      pending promises that are in no other slot. */
  lemma InvokeGives(s: State, t: nat, v: Value)
    requires Good(s) && Legal(s, Invoke(t, v))
    ensures var out := Step(s, Invoke(t, v));
            && Started(s, t, v, Done, out)
            && (s.recs[t].done.Unset? ==> SettledAs(out, |s.recs|, v, true))
            && forall i | 0 <= i < |s.recs[t].handlers| ::
                 var h := s.recs[t].handlers[i];
                 (IsProto(s, h) || (Open(s, h) && Listed(s.recs, h) == 1)) ==>
                   Reached(s, h, Sequences.CopySlot(Weights(s), s, t, i), out)
  {
    var w := Weights(s);
    FinishStarts(w, s, t, v, Done);
    forall i | 0 <= i < |s.recs[t].handlers|
             && var h := s.recs[t].handlers[i]; IsProto(s, h) || (Open(s, h) && Listed(s.recs, h) == 1)
      ensures Reached(s, s.recs[t].handlers[i], Sequences.CopySlot(w, s, t, i), Step(s, Invoke(t, v)))
    {
      FinishReaches(w, s, t, v, Done, i);
    }
  }

  /** The same for done and fail of a sequence; the clone's own reference is given back. */
  lemma FinishSequence(s: State, t: nat, kind: Kind, v: Value)
    requires Good(s) && Legal(s, Finish(t, kind, v)) && s.recs[t].flags.proto
    ensures var out := Step(s, Finish(t, kind, v));
            && Started(s, t, v, kind, out)
            && forall i | 0 <= i < |s.recs[t].handlers| ::
                 var h := s.recs[t].handlers[i];
                 (IsProto(s, h) || (Open(s, h) && Listed(s.recs, h) == 1)) ==>
                   Reached(s, h, Sequences.CopySlot(Weights(s), s, t, i), out)
  {
    var w, c := Weights(s), |s.recs|;
    var out := FinishF(w, s, t, v, Settle(kind));
    FinishStarts(w, s, t, v, kind);
    DropOnward(w, out, c);
    OnwardLasts(out, Drop(out, c));
    TakenLasts(if kind.Done? then s.recs[t].done else s.recs[t].fail, c, Settle(kind), v, s, s, out, Drop(out, c));
    forall i | 0 <= i < |s.recs[t].handlers|
             && var h := s.recs[t].handlers[i]; IsProto(s, h) || (Open(s, h) && Listed(s.recs, h) == 1)
      ensures Reached(s, s.recs[t].handlers[i], Sequences.CopySlot(w, s, t, i), Drop(out, c))
    {
      FinishReaches(w, s, t, v, kind, i);
      ReachedDrop(w, s, s.recs[t].handlers[i], Sequences.CopySlot(w, s, t, i), out);
    }
  }

  lemma ReachedDrop(w: nat -> nat, s: State, h: nat, x: nat, out: State)
    requires Reached(s, h, x, out) && Ok(w, out)
    ensures Reached(s, h, x, Drop(out, |s.recs|))
  {
    var c := |s.recs|;
    var r := out.recs[c];
    DropOnward(w, out, c);
    hide Given, Kept, Listed;
    if r.flags.done || r.flags.failed {
      var sig := Settle(if r.flags.done then Done else Failed);
      GivenWider(s.recs[h], s.recs[h], x, sig, r.result, s, s, out, Drop(out, c));
    } else {
      CloneDropped(out, c, c, x);
    }
  }
}
