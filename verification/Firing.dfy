/** Who is reached by a delivery, and that no callback runs twice. */
module Firing {
  import opened Values
  import opened Engine
  import opened Cloning
  import opened Delivery
  import opened Permanence

  /** The promise has been activated: it settled, or it ran and now waits. */
  predicate Fired(r: Rec) { Finished(r) || r.await.Some? }

  ghost predicate StillFired(s: State, s': State) {
    && |s.recs| <= |s'.recs| && |s.gens| <= |s'.gens|
    && forall i | 0 <= i < |s.recs| && Fired(s.recs[i]) :: Fired(s'.recs[i]) && Calls(s'.log, i) == Calls(s.log, i)
  }

  /** The calls of callbacks of `p`, in order, each with the generator that it made. */
  function Calls(log: seq<Event>, p: nat): seq<Option<Creation>> {
    if log == [] then []
    else Calls(log[..|log| - 1], p) + var e := log[|log| - 1]; if e.Called? && e.p == p then [e.made] else []
  }

  /** A callback of `p` ran at most once, and only if `p` has fired. */
  predicate OnceAt(s: State, p: nat) {
    |Calls(s.log, p)| <= if p < |s.recs| && Fired(s.recs[p]) then 1 else 0
  }

  /** Only generators that exist have been resumed. */
  predicate Logged(log: seq<Event>, n: nat) {
    forall i | 0 <= i < |log| && log[i].Resumed? :: log[i].g < n
  }

  ghost predicate Once(s: State) { (forall p: nat :: OnceAt(s, p)) && Logged(s.log, |s.gens|) }

  /** Nothing that fired is called again, and nothing is called twice. */
  ghost predicate Advances(s: State, s': State) { StillFired(s, s') && (Once(s) ==> Once(s')) }

  lemma AdvancesTrans(a: State, b: State, c: State)
    requires Advances(a, b) && Advances(b, c)
    ensures Advances(a, c)
  {
  }

  lemma CallsMore(log: seq<Event>, e: Event, p: nat)
    ensures Calls(log + [e], p) == Calls(log, p) + if e.Called? && e.p == p then [e.made] else []
  {
    assert (log + [e])[..|log|] == log;
  }

  lemma ResumedMore(log: seq<Event>, g: nat, r: Resume, n: nat)
    requires g < n
    ensures Logged(log, n) ==> Logged(log + [Resumed(g, r)], n)
  {
  }

  // ---- The coroutine driver calls no callback -------------------------------------------------

  /** A run that calls no callback of `i` and resumes only generators that exist. */
  ghost predicate Silent(log: seq<Event>, n: nat, run: Run, i: nat) {
    Calls(run.log, i) == Calls(log, i) && (Logged(log, n) ==> Logged(run.log, |run.gens|))
  }

  lemma {:induction false} WatchCalls(recs: seq<Rec>, gens: seq<Script>, log: seq<Event>,
                                      gen: Option<nat>, v: Value, kind: Kind, skip: bool, i: nat)
    requires PlainResults(recs) && (gen.Some? ==> gen.value < |gens|)
    ensures Silent(log, |gens|, Watch(recs, gens, log, gen, v, kind, skip), i)
    decreases Stage(gen, v, skip), Current(gens, gen), if v.Prom? then 3 else 2
  {
    match Read(recs, gens, v)
    case Gen(g) =>
      if skip || gen.Some? {
        ResolvedCalls(recs, gens, log, gen, v, kind, skip, i);
      } else {
        match gens[g]
        case Yield(y, _) => WatchCalls(recs, gens, log, Some(g), y, kind, skip, i);
        case Return(_) => WatchCalls(recs, gens, log, Some(g), Null, kind, skip, i);
        case Raise(e) => WatchCalls(recs, gens[g := Return(Null)], log, None, Error(e), Failed, skip, i);
      }
    case Prom(q) =>
      if Finished(recs[q]) {
        WatchCalls(recs, gens, log, gen, recs[q].result, OutcomeKind(recs[q]), skip, i);
      }
    case _ => ResolvedCalls(recs, gens, log, gen, Read(recs, gens, v), kind, skip, i);
  }

  lemma {:induction false} ResolvedCalls(recs: seq<Rec>, gens: seq<Script>, log: seq<Event>,
                                         gen: Option<nat>, v: Value, kind: Kind, skip: bool, i: nat)
    requires PlainResults(recs) && (gen.Some? ==> gen.value < |gens|) && !v.Prom?
    ensures Silent(log, |gens|, Resolved(recs, gens, log, gen, v, kind, skip), i)
    decreases Stage(gen, v, skip), Current(gens, gen), 1
  {
    if gen.Some? { FeedCalls(recs, gens, log, gen.value, v, kind, skip, i); }
  }

  lemma {:induction false} FeedCalls(recs: seq<Rec>, gens: seq<Script>, log: seq<Event>,
                                     g: nat, v: Value, kind: Kind, skip: bool, i: nat)
    requires PlainResults(recs) && g < |gens|
    ensures Silent(log, |gens|, Feed(recs, gens, log, g, v, kind, skip), i)
    decreases 1, gens[g], 0
  {
    var r := if kind.Done? then Send(v) else Throw(v);
    var sc := Continue(gens[g], r);
    var gens', log' := gens[g := Rest(sc)], log + [Resumed(g, r)];
    CallsMore(log, Resumed(g, r), i);
    ResumedMore(log, g, r, |gens|);
    FeedTurn(recs, gens, log, g, v, kind, skip);
    hide Watch, Feed, Calls, Logged;
    match sc
    case Yield(y, _) =>
      if Read(recs, gens', y).Gen? { FeedCalls(recs, gens', log', g, y, kind, skip, i); }
      else { WatchCalls(recs, gens', log', Some(g), y, kind, skip, i); }
    case Return(x) => WatchCalls(recs, gens', log', None, x, Done, true, i);
    case Raise(e) => WatchCalls(recs, gens', log', None, Error(e), Failed, skip, i);
  }

  /** The call that an activation makes, if any; a promise that wakes up makes none. */
  function OwnCalls(s: State, p: nat, data: Value, sig: Signal): seq<Option<Creation>>
    requires p < |s.recs|
  {
    var cb := Pick(s.recs[p], sig, data);
    if s.recs[p].await.Some? || cb.Unset? then [] else [Made(Call(cb, data), |s.gens|)]
  }

  /** One activation calls a callback at most once, its own, and none when it wakes up. */
  lemma DriveCalls(s: State, p: nat, data: Value, sig: Signal, i: nat)
    requires CanDrive(s, p) && PlainResults(s.recs) && !data.Prom?
    ensures var run := Drive(s, p, data, sig);
            && Calls(run.log, i) == Calls(s.log, i) + (if i == p then OwnCalls(s, p, data, sig) else [])
            && (Logged(s.log, |s.gens|) ==> Logged(run.log, |run.gens|))
  {
    var r := s.recs[p];
    if r.await.Some? {
      if r.gen.Some? { WatchCalls(s.recs, s.gens, s.log, r.gen, data, KindOf(sig), false, i); }
    } else {
      var cb := Pick(r, sig, data);
      if cb.Unset? {
        ResolvedCalls(s.recs, s.gens, s.log, r.gen, data, KindOf(sig), false, i);
      } else {
        var e := Called(p, sig, data, Made(Call(cb, data), |s.gens|));
        CallsMore(s.log, e, i);
        var log := s.log + [e];
        hide Calls, Watch, Resolved;
        match Call(cb, data)
        case Raises(e) => ResolvedCalls(s.recs, s.gens, log, r.gen, Error(e), Failed, false, i);
        case Returns(v) => WatchCalls(s.recs, s.gens, log, r.gen, v, Done, v.Gen? && Skips(cb), i);
        case Fresh(sc) => WatchCalls(s.recs, s.gens + [sc], log, r.gen, Gen(|s.gens|), Done, Skips(cb), i);
      }
    }
  }

  // ---- Delivery -------------------------------------------------------------------------------

  /** From `s` to `s'` no callback was called, and everything that fired stays so. */
  lemma SilentAdvances(s: State, s': State)
    requires |s.recs| <= |s'.recs| && |s.gens| <= |s'.gens|
    requires forall i | 0 <= i < |s.recs| && Fired(s.recs[i]) :: Fired(s'.recs[i])
    requires forall i: nat :: Calls(s'.log, i) == Calls(s.log, i)
    requires Logged(s.log, |s.gens|) ==> Logged(s'.log, |s'.gens|)
    ensures Advances(s, s')
  {
    hide Calls, Logged;
    if Once(s) { forall i: nat ensures OnceAt(s', i) { assert OnceAt(s, i); } }
  }

  lemma CloneAdvances(w: nat -> nat, s: State, t: nat)
    requires Ok(w, s) && IsProto(s, t)
    ensures Advances(s, CloneF(w, s, t))
  {
    var out := CloneF(w, s, t);
    forall i | 0 <= i < |s.recs| && Fired(s.recs[i]) ensures Fired(out.recs[i]) {
      assert FrameAt(w, s, out, i, w(t), |s.recs|);
    }
    forall i: nat ensures Calls(out.log, i) == Calls(s.log, i) { CloneCalls(w, s, t, i); }
    CloneCalls(w, s, t, 0);
    hide Ok, CloneF, Calls, Logged;
    SilentAdvances(s, out);
  }

  lemma {:induction false} CloneCalls(w: nat -> nat, s: State, t: nat, i: nat)
    requires Ok(w, s) && IsProto(s, t)
    ensures Calls(CloneF(w, s, t).log, i) == Calls(s.log, i)
    ensures Logged(s.log, |s.gens|) ==> Logged(CloneF(w, s, t).log, |s.gens|)
    decreases w(t), |s.recs[t].handlers| + 1
  {
    NewOk(w, s, t);
    var s1 := s.(recs := s.recs + [Blank(s.recs[t])]);
    SlotsCalls(w, s1, t, |s.recs|, 0, i);
    CallsMore(CloneSlots(w, s1, t, |s.recs|, 0).log, Cleaned(t), i);
  }

  lemma {:induction false} SlotsCalls(w: nat -> nat, s: State, t: nat, c: nat, k: nat, i: nat)
    requires Cloneable(w, s, t, c, k)
    ensures Calls(CloneSlots(w, s, t, c, k).log, i) == Calls(s.log, i)
    ensures Logged(s.log, |s.gens|) ==> Logged(CloneSlots(w, s, t, c, k).log, |s.gens|)
    decreases w(t), |s.recs[t].handlers| - k
  {
    var hs := s.recs[t].handlers;
    if k < |hs| {
      SlotLighter(w, s, t, k);
      if IsProto(s, hs[k]) {
        var s1 := CloneF(w, s, hs[k]);
        var s2 := s1.(recs := PushSlot(s1.recs, c, |s.recs|));
        NestedOk(w, s, t, c, k, s1, s2);
        CloneCalls(w, s, hs[k], i);
        SlotsCalls(w, s2, t, c, k + 1, i);
      } else {
        var s2 := s.(recs := MoveSlot(s.recs, t, c, k));
        MoveOk(w, s, t, c, k, s2);
        SlotsCalls(w, s2, t, c, k, i);
      }
    }
  }

  lemma DropAdvances(s: State, i: nat)
    requires i < |s.recs|
    ensures Advances(s, Drop(s, i))
  {
    SilentAdvances(s, Drop(s, i));
  }

  lemma RunAdvances(w: nat -> nat, s: State, p: nat, data: Value, sig: Signal)
    requires CanResolve(w, s, p, data) && !Finished(s.recs[p]) && CanDrive(s, p) && PlainResults(s.recs)
    ensures var run := Drive(s, p, data, sig);
            var s' := if run.Suspends? then Waiting(s, p, run) else Closed(s, p, run);
            Advances(s, s') && Fired(s'.recs[p])
  {
    var run := Drive(s, p, data, sig);
    var s' := if run.Suspends? then Waiting(s, p, run) else Closed(s, p, run);
    forall i: nat
      ensures Calls(s'.log, i) == Calls(s.log, i) + if i == p then OwnCalls(s, p, data, sig) else []
    {
      DriveCalls(s, p, data, sig, i);
    }
    DriveCalls(s, p, data, sig, p);
    RunFires(s, p, run);
    assert OwnCalls(s, p, data, sig) == [] || !Fired(s.recs[p]) by { assert Fired(s.recs[p]) ==>
      s.recs[p].await.Some?; }
    hide Calls, Logged, Drive, Waiting, Closed, Ok, OwnCalls;
    assert StillFired(s, s');
    if Once(s) { forall i: nat ensures OnceAt(s', i) { assert OnceAt(s, i); } }
  }

  lemma RunFires(s: State, p: nat, run: Run)
    requires CanDrive(s, p) && RunOk(s.recs, |s.gens|, run)
    ensures var s' := if run.Suspends? then Waiting(s, p, run) else Closed(s, p, run);
            && |s'.recs| == |s.recs| && s'.gens == run.gens && s'.log == run.log && Fired(s'.recs[p])
            && forall i | 0 <= i < |s.recs| && Fired(s.recs[i]) :: Fired(s'.recs[i])
  {
    var s' := if run.Suspends? then Waiting(s, p, run) else Closed(s, p, run);
    forall i | 0 <= i < |s.recs| ensures Fired(s.recs[i]) || i == p ==> Fired(s'.recs[i]) {
      if run.Suspends? { WaitingFields(s, p, run, i); } else { ClosedFields(s, p, run, i); }
    }
  }

  lemma {:induction false} ResolveAdvances(w: nat -> nat, s: State, p: nat, data: Value, sig: Signal)
    requires CanResolve(w, s, p, data)
    ensures Advances(s, ResolveF(w, s, p, data, sig)) && Fired(ResolveF(w, s, p, data, sig).recs[p])
    decreases Load(w, s.recs), 0
  {
    if !Finished(s.recs[p]) {
      OkDrives(w, s, p);
      RunAdvances(w, s, p, data, sig);
      var run := Drive(s, p, data, sig);
      if run.Settles? {
        SettleOk(w, s, p, run);
        DeliverAdvances(w, Closed(s, p, run), s.recs[p].handlers, run.v, Settle(run.kind));
      }
    }
  }

  lemma {:induction false} OneAdvances(w: nat -> nat, s: State, h: nat, v: Value, sig: Signal)
    requires Ok(w, s) && !v.Prom? && h < |s.recs|
    ensures var out := DeliverOne(w, s, h, v, sig);
            Advances(s, out) && if IsProto(s, h) then |s.recs| < |out.recs|
              && Fired(out.recs[|s.recs|]) else Fired(out.recs[h])
    decreases Load(w, s.recs) + w(h), 1
  {
    assert RecOk(w, s, h);
    if IsProto(s, h) {
      var s1 := CloneF(w, s, h);
      CloneAdvances(w, s, h);
      RefOk(w, s1, h, -1);
      DropAdvances(s1, h);
      var s2 := ResolveF(w, Drop(s1, h), |s.recs|, v, sig);
      ResolveAdvances(w, Drop(s1, h), |s.recs|, v, sig);
      DropAdvances(s2, |s.recs|);
    } else {
      ResolveAdvances(w, s, h, v, sig);
      DropAdvances(ResolveF(w, s, h, v, sig), h);
    }
  }

  /** A delivery reaches every handler it was given. */
  lemma {:induction false} DeliverAdvances(w: nat -> nat, s: State, hs: seq<nat>, v: Value, sig: Signal)
    requires CanDeliver(w, s, hs, v)
    ensures Advances(s, DeliverF(w, s, hs, v, sig))
    ensures forall j | 0 <= j < |hs| && !IsProto(s, hs[j]) :: Fired(DeliverF(w, s, hs, v, sig).recs[hs[j]])
    decreases Load(w, s.recs) + SlotCost(hs, w), 2 + |hs|
  {
    if hs != [] {
      var s1 := DeliverOne(w, s, hs[0], v, sig);
      var out := DeliverF(w, s1, hs[1..], v, sig);
      OneAdvances(w, s, hs[0], v, sig);
      OneKept(w, s, hs[0], v, sig);
      DeliverAdvances(w, s1, hs[1..], v, sig);
      AdvancesTrans(s, s1, out);
      forall j | 0 <= j < |hs| && !IsProto(s, hs[j]) ensures Fired(out.recs[hs[j]]) {
        assert KeptAt(s, s1, hs[j]);
        if j > 0 { assert hs[1..][j - 1] == hs[j]; }
      }
    }
  }
}
