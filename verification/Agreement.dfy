/** No delivery disturbs the story of a coroutine. */
module Agreement {
  import opened Values
  import opened Engine
  import opened Cloning
  import opened Delivery
  import opened Permanence
  import opened Firing
  import opened Coroutines

  /** Coroutine `p` runs generator `g`, may name `ids` and the first `m` generators; `res` says how
      every promise ends. */
  datatype Coro = Coro(p: nat, g: nat, ids: set<nat>, m: nat, res: Outcomes)

  /** A callback that is given plain data hands out no generator that already exists. */
  predicate OwnGenerators(cb: Callback, v: Value) {
    cb.Unset? || !Call(cb, v).Returns? || !Call(cb, v).v.Gen?
  }

  ghost predicate TidyCallback(cb: Callback) { forall v: Value | Plainly(v) :: OwnGenerators(cb, v) }

  ghost predicate Tidy(r: Rec) { TidyCallback(r.done) && TidyCallback(r.fail) && TidyCallback(r.canceler) }

  /** Record `i` does not run the coroutine's generator, and has the coroutine among its handlers
      exactly if the coroutine waits for it. */
  ghost predicate Apart(s: State, co: Coro, i: nat)
    requires i < |s.recs| && co.p < |s.recs|
  {
    && Tidy(s.recs[i]) && (i != co.p ==> s.recs[i].gen != Some(co.g))
    && multiset(s.recs[i].handlers)[co.p]
       == if s.recs[co.p].await == Some(i) && !Finished(s.recs[i]) then 1 else 0
  }

  /** The coroutine has been started and is alone with its generator. */
  ghost predicate Alive(s: State, co: Coro) {
    && co.p < |s.recs| && !s.recs[co.p].flags.proto && Fired(s.recs[co.p])
    && co.g < |s.gens| && co.m <= |s.gens| && Names(s.gens[co.g], co.ids, co.m)
    && (forall q | q in co.ids :: q < |s.recs| && !s.recs[q].flags.proto)
    && (s.recs[co.p].await.Some? ==> s.recs[co.p].await.value in co.ids)
    && (s.recs[co.p].gen == None || s.recs[co.p].gen == Some(co.g))
    && (forall i | 0 <= i < |s.recs| :: Apart(s, co, i))
  }

  /** What the coroutine has done so far, and what it will do. */
  function Whole(s: State, co: Coro): Story
    requires co.p < |s.recs| && co.g < |s.gens|
  {
    var r := s.recs[co.p];
    if Finished(r) then Story(Sent(s.log, co.g), r.result, OutcomeKind(r))
    else if r.await.None? then Story([], Null, Done)
    else
      var o := co.res(r.await.value);
      After(Sent(s.log, co.g), if r.gen.Some? then Solo(co.res, s.gens[co.g], o.0, o.1) else Story([], o.0, o.1))
  }

  /** From `s` to `s'` the coroutine keeps its story. */
  ghost predicate Carried(s: State, s': State, co: Coro)
    requires Alive(s, co)
  {
    Alive(s', co) && Whole(s', co) == Whole(s, co)
  }

  /** The coroutine keeps its story because nothing happens to it. */
  ghost predicate Untouched(s: State, s': State, co: Coro)
    requires Alive(s, co)
  {
    Carried(s, s', co) && s'.recs[co.p].await == s.recs[co.p].await
  }

  lemma AgreesBack(s: State, s': State, res: Outcomes)
    requires Kept(s, s') && Agrees(s'.recs, res)
    ensures Agrees(s.recs, res)
  {
    forall q | 0 <= q < |s.recs| && Finished(s.recs[q]) ensures AgreesAt(s.recs[q], q, res) {
      assert KeptAt(s, s', q);
      assert AgreesAt(s'.recs[q], q, res);
    }
  }

  // ---- Other promises -------------------------------------------------------------------------

  /** A run that leaves generator `g` alone. */
  ghost predicate Spares(gens: seq<Script>, log: seq<Event>, g: nat, run: Run)
    requires g < |gens|
  {
    && |gens| <= |run.gens| && run.gens[g] == gens[g] && Sent(run.log, g) == Sent(log, g)
    && (run.Suspends? ==> run.gen != Some(g))
  }

  lemma {:induction false} WatchSpares(recs: seq<Rec>, gens: seq<Script>, log: seq<Event>, gen: Option<nat>,
                                       v: Value, kind: Kind, skip: bool, g: nat, res: Outcomes)
    requires PlainResults(recs) && Agrees(recs, res) && (gen.Some? ==> gen.value < |gens|)
    requires g < |gens| && gen != Some(g) && (v == Gen(g) ==> skip || gen.Some?)
    ensures Spares(gens, log, g, Watch(recs, gens, log, gen, v, kind, skip))
    decreases Stage(gen, v, skip), Current(gens, gen), if v.Prom? then 3 else 2
  {
    match Read(recs, gens, v)
    case Gen(h) =>
      if skip || gen.Some? {
        ResolvedSpares(recs, gens, log, gen, v, kind, skip, g, res);
      } else {
        match gens[h]
        case Yield(y, _) => WatchSpares(recs, gens, log, Some(h), y, kind, skip, g, res);
        case Return(_) => WatchSpares(recs, gens, log, Some(h), Null, kind, skip, g, res);
        case Raise(e) => WatchSpares(recs, gens[h := Return(Null)], log, None, Error(e), Failed, skip, g, res);
      }
    case Prom(q) =>
      if Finished(recs[q]) {
        assert AgreesAt(recs[q], q, res);
        WatchSpares(recs, gens, log, gen, recs[q].result, OutcomeKind(recs[q]), skip, g, res);
      }
    case _ => ResolvedSpares(recs, gens, log, gen, Read(recs, gens, v), kind, skip, g, res);
  }

  lemma {:induction false} ResolvedSpares(recs: seq<Rec>, gens: seq<Script>, log: seq<Event>, gen: Option<nat>,
                                          v: Value, kind: Kind, skip: bool, g: nat, res: Outcomes)
    requires PlainResults(recs) && Agrees(recs, res) && (gen.Some? ==> gen.value < |gens|) && !v.Prom?
    requires g < |gens| && gen != Some(g)
    ensures Spares(gens, log, g, Resolved(recs, gens, log, gen, v, kind, skip))
    decreases Stage(gen, v, skip), Current(gens, gen), 1
  {
    if gen.Some? { FeedSpares(recs, gens, log, gen.value, v, kind, skip, g, res); }
  }

  lemma {:induction false} FeedSpares(recs: seq<Rec>, gens: seq<Script>, log: seq<Event>, h: nat,
                                      v: Value, kind: Kind, skip: bool, g: nat, res: Outcomes)
    requires PlainResults(recs) && Agrees(recs, res) && h < |gens| && g < |gens| && h != g
    ensures Spares(gens, log, g, Feed(recs, gens, log, h, v, kind, skip))
    decreases 1, gens[h], 0
  {
    var r := if kind.Done? then Send(v) else Throw(v);
    var sc := Continue(gens[h], r);
    var gens', log' := gens[h := Rest(sc)], log + [Resumed(h, r)];
    SentMore(log, Resumed(h, r), g);
    match sc
    case Yield(y, _) =>
      if Read(recs, gens', y).Gen? { FeedSpares(recs, gens', log', h, y, kind, skip, g, res); }
      else { WatchSpares(recs, gens', log', Some(h), y, kind, skip, g, res); }
    case Return(x) => WatchSpares(recs, gens', log', None, x, Done, true, g, res);
    case Raise(e) => WatchSpares(recs, gens', log', None, Error(e), Failed, skip, g, res);
  }

  lemma DriveSpares(s: State, h: nat, data: Value, sig: Signal, g: nat, res: Outcomes)
    requires CanDrive(s, h) && PlainResults(s.recs) && Agrees(s.recs, res) && !data.Prom? && !data.Gen?
    requires g < |s.gens| && s.recs[h].gen != Some(g) && Tidy(s.recs[h])
    ensures Spares(s.gens, s.log, g, Drive(s, h, data, sig))
  {
    var r := s.recs[h];
    if r.await.Some? {
      if r.gen.Some? { WatchSpares(s.recs, s.gens, s.log, r.gen, data, KindOf(sig), false, g, res); }
    } else {
      var cb := Pick(r, sig, data);
      if cb.Unset? {
        ResolvedSpares(s.recs, s.gens, s.log, r.gen, data, KindOf(sig), false, g, res);
      } else {
        assert OwnGenerators(cb, data);
        var e := Called(h, sig, data, Made(Call(cb, data), |s.gens|));
        var log := s.log + [e];
        SentMore(s.log, e, g);
        match Call(cb, data)
        case Raises(e) => ResolvedSpares(s.recs, s.gens, log, r.gen, Error(e), Failed, false, g, res);
        case Returns(v) => WatchSpares(s.recs, s.gens, log, r.gen, v, Done, v.Gen? && Skips(cb), g, res);
        case Fresh(sc) => WatchSpares(s.recs, s.gens + [sc], log, r.gen, Gen(|s.gens|), Done, Skips(cb), g, res);
      }
    }
  }

  lemma CarriedTrans(a: State, b: State, c: State, co: Coro)
    requires Alive(a, co) && Untouched(a, b, co) && Untouched(b, c, co)
    ensures Untouched(a, c, co)
  {
  }

  /** A change of reference counts, log entries of other kinds, or slots that do not name `p`. */
  lemma DropCarried(s: State, x: nat, co: Coro)
    requires Alive(s, co) && x < |s.recs|
    ensures Untouched(s, Drop(s, x), co)
  {
    forall i | 0 <= i < |s.recs| ensures Apart(Drop(s, x), co, i) { assert Apart(s, co, i); }
  }

  lemma WaitingApart(s: State, h: nat, run: Run, co: Coro, i: nat)
    requires CanDrive(s, h) && h != co.p && run.Suspends? && RunOk(s.recs, |s.gens|, run) && run.gen != Some(co.g)
    requires co.p < |s.recs| && i < |s.recs| && Apart(s, co, i)
    ensures Apart(Waiting(s, h, run), co, i)
  {
    hide TidyCallback;
    WaitingFields(s, h, run, co.p);
    WaitingFields(s, h, run, i);
  }

  lemma WaitingCarried(s: State, h: nat, run: Run, co: Coro)
    requires Alive(s, co) && CanDrive(s, h) && h != co.p && run.Suspends? && RunOk(s.recs, |s.gens|, run)
    requires Spares(s.gens, s.log, co.g, run)
    ensures Untouched(s, Waiting(s, h, run), co)
  {
    hide TidyCallback, Apart;
    var s' := Waiting(s, h, run);
    WaitingFields(s, h, run, co.p);
    forall i | 0 <= i < |s.recs| ensures Apart(s', co, i) { WaitingApart(s, h, run, co, i); }
    forall q | q in co.ids ensures q < |s'.recs| && !s'.recs[q].flags.proto { WaitingFields(s, h, run, q); }
  }

  lemma ClosedIds(s: State, h: nat, run: Run, co: Coro)
    requires CanDrive(s, h) && run.Settles? && forall q | q in co.ids :: q < |s.recs| && !s.recs[q].flags.proto
    ensures forall q | q in co.ids :: q < |Closed(s, h, run).recs| && !Closed(s, h, run).recs[q].flags.proto
  {
    forall q | q in co.ids ensures q < |Closed(s, h, run).recs| && !Closed(s, h, run).recs[q].flags.proto {
      ClosedFields(s, h, run, q);
    }
  }

  lemma ClosedApart(s: State, h: nat, run: Run, co: Coro, i: nat)
    requires CanDrive(s, h) && h != co.p && run.Settles?
    requires co.p < |s.recs| && i < |s.recs| && Apart(s, co, i)
    ensures Apart(Closed(s, h, run), co, i)
  {
    ClosedFields(s, h, run, co.p);
    ClosedFields(s, h, run, i);
  }

  lemma ClosedCarried(s: State, h: nat, run: Run, co: Coro)
    requires Alive(s, co) && CanDrive(s, h) && h != co.p && run.Settles?
    requires Spares(s.gens, s.log, co.g, run)
    ensures Untouched(s, Closed(s, h, run), co)
  {
    var s' := Closed(s, h, run);
    ClosedFields(s, h, run, co.p);
    ClosedIds(s, h, run, co);
    forall i | 0 <= i < |s.recs| ensures Apart(s', co, i) { ClosedApart(s, h, run, co, i); }
    assert s'.gens == run.gens && s'.log == run.log && |s'.recs| == |s.recs|;
    hide Closed, Solo, Sent, Names, Apart;
  }

  // ---- Cloning --------------------------------------------------------------------------------

  lemma BlankCarried(w: nat -> nat, s: State, t: nat, co: Coro)
    requires Ok(w, s) && IsProto(s, t) && Alive(s, co)
    ensures Untouched(s, s.(recs := s.recs + [Blank(s.recs[t])]), co)
  {
    var s' := s.(recs := s.recs + [Blank(s.recs[t])]);
    assert Apart(s, co, t) && RecOk(w, s, co.p);
    forall i | 0 <= i < |s'.recs| ensures Apart(s', co, i) { assert i < |s.recs| ==> Apart(s, co, i); }
  }

  /** Handlers other than the coroutine may come and go. */
  lemma HandlersCarried(s: State, c: nat, hs: seq<nat>, co: Coro)
    requires Alive(s, co) && c < |s.recs| && multiset(hs)[co.p] == multiset(s.recs[c].handlers)[co.p]
    ensures Untouched(s, s.(recs := s.recs[c := s.recs[c].(handlers := hs)]), co)
  {
    var s' := s.(recs := s.recs[c := s.recs[c].(handlers := hs)]);
    forall i | 0 <= i < |s.recs| ensures Apart(s', co, i) { assert Apart(s, co, i); }
  }

  lemma PushCarried(s: State, c: nat, x: nat, co: Coro)
    requires Alive(s, co) && c < |s.recs| && x != co.p
    ensures Untouched(s, s.(recs := PushSlot(s.recs, c, x)), co)
  {
    HandlersCarried(s, c, s.recs[c].handlers + [x], co);
  }

  lemma NestedCarried(s: State, s1: State, c: nat, x: nat, co: Coro)
    requires Alive(s, co) && Untouched(s, s1, co) && c < |s1.recs| && x != co.p
    ensures Untouched(s, s1.(recs := PushSlot(s1.recs, c, x)), co)
  {
    PushCarried(s1, c, x, co);
  }

  /** The coroutine is in no prototype's slots, so it is never moved. */
  lemma NotMoved(s: State, t: nat, k: nat, co: Coro)
    requires Alive(s, co) && IsProto(s, t) && k < |s.recs[t].handlers|
    ensures s.recs[t].handlers[k] != co.p
  {
    assert Apart(s, co, t);
    var hs := s.recs[t].handlers;
    assert multiset(hs)[hs[k]] > 0;
  }

  lemma RelinkCarried(s: State, x: nat, t: nat, c: nat, co: Coro)
    requires Alive(s, co) && x < |s.recs| && t < |s.recs| && c < |s.recs| && x != co.p
    ensures Untouched(s, s.(recs := Relink(s.recs, x, t, c)), co)
  {
    var s' := s.(recs := Relink(s.recs, x, t, c));
    forall i | 0 <= i < |s.recs| ensures Apart(s', co, i) { assert Apart(s, co, i); }
  }

  lemma DropSlotCarried(s: State, t: nat, k: nat, co: Coro)
    requires Alive(s, co) && t < |s.recs| && k < |s.recs[t].handlers| && s.recs[t].handlers[k] != co.p
    ensures Untouched(s, s.(recs := DropSlot(s.recs, t, k)), co)
  {
    var hs := s.recs[t].handlers;
    assert hs == hs[..k] + [hs[k]] + hs[k + 1..];
    HandlersCarried(s, t, hs[..k] + hs[k + 1..], co);
  }

  lemma MoveCarried(s: State, t: nat, c: nat, k: nat, co: Coro)
    requires Alive(s, co) && IsProto(s, t) && c < |s.recs| && c != t && k < |s.recs[t].handlers|
    requires s.recs[t].handlers[k] < |s.recs|
    ensures Untouched(s, s.(recs := MoveSlot(s.recs, t, c, k)), co)
  {
    var x := s.recs[t].handlers[k];
    NotMoved(s, t, k, co);
    PushCarried(s, c, x, co);
    var s1 := s.(recs := PushSlot(s.recs, c, x));
    RelinkCarried(s1, x, t, c, co);
    DropSlotCarried(s1.(recs := Relink(s1.recs, x, t, c)), t, k, co);
  }

  lemma CleanCarried(s: State, t: nat, co: Coro)
    requires Alive(s, co) && t < |s.recs|
    ensures Untouched(s, TryClean(s, t), co)
  {
    SentMore(s.log, Cleaned(t), co.g);
    hide TidyCallback, Sent, Solo, Names;
    forall i | 0 <= i < |s.recs| ensures Apart(TryClean(s, t), co, i) { assert Apart(s, co, i); }
  }

  lemma {:induction false} CloneCarried(w: nat -> nat, s: State, t: nat, co: Coro)
    requires Ok(w, s) && IsProto(s, t) && Alive(s, co)
    ensures Untouched(s, CloneF(w, s, t), co)
    decreases w(t), |s.recs[t].handlers| + 1
  {
    var s1 := s.(recs := s.recs + [Blank(s.recs[t])]);
    NewOk(w, s, t);
    BlankCarried(w, s, t, co);
    SlotsCarried(w, s1, t, |s.recs|, 0, co);
    CleanCarried(CloneSlots(w, s1, t, |s.recs|, 0), t, co);
  }

  lemma NestedStep(w: nat -> nat, s: State, t: nat, c: nat, k: nat, s2: State, co: Coro)
    requires Cloneable(w, s, t, c, k) && Alive(s, co) && Untouched(s, s2, co)
    requires k < |s.recs[t].handlers| && IsProto(s, s.recs[t].handlers[k])
    requires var s1 := CloneF(w, s, s.recs[t].handlers[k]);
             c < |s1.recs| && s2 == s1.(recs := PushSlot(s1.recs, c, |s.recs|))
    requires Cloneable(w, s2, t, c, k + 1) && Untouched(s2, CloneSlots(w, s2, t, c, k + 1), co)
    ensures Untouched(s, CloneSlots(w, s, t, c, k), co)
  {
    NestedUnfolds(w, s, t, c, k, s2);
    hide Alive, Whole, CloneSlots, CloneF;
    CarriedTrans(s, s2, CloneSlots(w, s2, t, c, k + 1), co);
  }

  lemma MovedStep(w: nat -> nat, s: State, t: nat, c: nat, k: nat, s2: State, co: Coro)
    requires Cloneable(w, s, t, c, k) && Alive(s, co) && Untouched(s, s2, co)
    requires k < |s.recs[t].handlers| && !IsProto(s, s.recs[t].handlers[k]) && s.recs[t].handlers[k] < |s.recs|
    requires s2 == s.(recs := MoveSlot(s.recs, t, c, k))
    requires Cloneable(w, s2, t, c, k) && Untouched(s2, CloneSlots(w, s2, t, c, k), co)
    ensures Untouched(s, CloneSlots(w, s, t, c, k), co)
  {
    MovedUnfolds(w, s, t, c, k, s2);
    hide Alive, Whole, CloneSlots, MoveSlot;
    CarriedTrans(s, s2, CloneSlots(w, s2, t, c, k), co);
  }

  lemma {:induction false} SlotsCarried(w: nat -> nat, s: State, t: nat, c: nat, k: nat, co: Coro)
    requires Cloneable(w, s, t, c, k) && Alive(s, co)
    ensures Untouched(s, CloneSlots(w, s, t, c, k), co)
    decreases w(t), |s.recs[t].handlers| - k
  {
    var hs := s.recs[t].handlers;
    if k == |hs| {
      assert CloneSlots(w, s, t, c, k) == s;
      Same(s, co);
    } else {
      hide Ok, Alive, Whole, MoveSlot, CloneSlots;
      SlotLighter(w, s, t, k);
      if IsProto(s, hs[k]) {
        var s1 := CloneF(w, s, hs[k]);
        var s2 := s1.(recs := PushSlot(s1.recs, c, |s.recs|));
        NestedOk(w, s, t, c, k, s1, s2);
        CloneCarried(w, s, hs[k], co);
        NestedCarried(s, s1, c, |s.recs|, co);
        SlotsCarried(w, s2, t, c, k + 1, co);
        NestedStep(w, s, t, c, k, s2, co);
      } else {
        var s2 := s.(recs := MoveSlot(s.recs, t, c, k));
        MoveOk(w, s, t, c, k, s2);
        MoveCarried(s, t, c, k, co);
        SlotsCarried(w, s2, t, c, k, co);
        MovedStep(w, s, t, c, k, s2, co);
      }
    }
  }

  // ---- The coroutine itself -------------------------------------------------------------------

  /** The coroutine waits for a promise that has settled with `(v, kind)`. */
  predicate Due(s: State, v: Value, kind: Kind, co: Coro)
    requires co.p < |s.recs|
  {
    && s.recs[co.p].await.Some? && s.recs[co.p].await.value < |s.recs|
    && Finished(s.recs[s.recs[co.p].await.value]) && co.res(s.recs[co.p].await.value) == (v, kind)
  }

  /** Some other loop will wake the coroutine. */
  predicate Held(s: State, co: Coro)
    requires co.p < |s.recs|
  {
    && s.recs[co.p].await.Some? && s.recs[co.p].await.value < |s.recs|
    && Finished(s.recs[s.recs[co.p].await.value])
  }

  /** `run`, started in `s` by waking the coroutine, tells the rest of its story. */
  ghost predicate Wakes(s: State, run: Run, co: Coro)
    requires co.p < |s.recs| && co.g < |s.gens|
  {
    && co.g < |run.gens| && |s.gens| <= |run.gens| && Names(run.gens[co.g], co.ids, co.m)
    && match run
       case Settles(x, k, _, log') => Story(Sent(log', co.g), x, k) == Whole(s, co)
       case Suspends(q, gen, gens', log') =>
         && q in co.ids && (gen == None || gen == Some(co.g))
         && var rest := if gen.Some? then Solo(co.res, gens'[co.g], co.res(q).0, co.res(q).1)
                        else Story([], co.res(q).0, co.res(q).1);
            After(Sent(log', co.g), rest) == Whole(s, co)
  }

  lemma WakeTells(s: State, v: Value, kind: Kind, co: Coro)
    requires CanDrive(s, co.p) && PlainResults(s.recs) && Agrees(s.recs, co.res) && Alive(s, co)
    requires !Finished(s.recs[co.p]) && Due(s, v, kind, co) && !v.Prom? && !v.Gen?
    ensures Wakes(s, Drive(s, co.p, v, Settle(kind)), co)
  {
    if s.recs[co.p].gen.Some? {
      WatchTells(s.recs, s.gens, s.log, co.g, v, kind, false, co.res, co.ids, co.m);
    } else {
      assert Sent(s.log, co.g) + [] == Sent(s.log, co.g);
    }
  }

  lemma WakeWaits(s: State, run: Run, co: Coro)
    requires Alive(s, co) && CanDrive(s, co.p) && !Finished(s.recs[co.p]) && Held(s, co)
    requires run.Suspends? && RunOk(s.recs, |s.gens|, run) && Wakes(s, run, co)
    ensures Carried(s, Waiting(s, co.p, run), co)
  {
    var s' := Waiting(s, co.p, run);
    WaitingFields(s, co.p, run, co.p);
    forall i | 0 <= i < |s.recs| ensures Apart(s', co, i) { WakeApart(s, run, co, i); }
    forall q | q in co.ids ensures q < |s'.recs| && !s'.recs[q].flags.proto { WaitingFields(s, co.p, run, q); }
  }

  lemma WakeApart(s: State, run: Run, co: Coro, i: nat)
    requires CanDrive(s, co.p) && Alive(s, co) && s.recs[co.p].await.Some?
    requires run.Suspends? && RunOk(s.recs, |s.gens|, run) && i < |s.recs|
    requires Finished(s.recs[s.recs[co.p].await.value])
    ensures Apart(Waiting(s, co.p, run), co, i)
  {
    assert Apart(s, co, i);
    WaitingFields(s, co.p, run, i);
    WaitingFields(s, co.p, run, co.p);
  }

  lemma WakeCloses(s: State, run: Run, co: Coro)
    requires Alive(s, co) && CanDrive(s, co.p) && !Finished(s.recs[co.p]) && Held(s, co)
    requires run.Settles? && Wakes(s, run, co)
    ensures Carried(s, Closed(s, co.p, run), co) && multiset(s.recs[co.p].handlers)[co.p] == 0
  {
    var s' := Closed(s, co.p, run);
    assert Apart(s, co, co.p);
    forall i | 0 <= i < |s.recs| ensures Apart(s', co, i) { assert Apart(s, co, i); ClosedFields(s, co.p, run, i); }
    ClosedFields(s, co.p, run, co.p);
    ClosedIds(s, co.p, run, co);
    hide Closed, Solo, Sent, Names;
  }

  // ---- Every delivery -------------------------------------------------------------------------

  ghost predicate Passes(s: State, out: State, co: Coro)
    requires Alive(s, co)
  {
    Carried(s, out, co) && (Held(s, co) ==> out.recs[co.p].await == s.recs[co.p].await)
  }

  lemma HeldStays(s: State, s': State, co: Coro)
    requires Alive(s, co) && Kept(s, s') && Held(s, co) && co.p < |s'.recs|
    requires s'.recs[co.p].await == s.recs[co.p].await
    ensures Held(s', co)
  {
    assert KeptAt(s, s', s.recs[co.p].await.value);
  }

  lemma PassesTrans(a: State, b: State, c: State, co: Coro)
    requires Alive(a, co) && Kept(a, b) && Passes(a, b, co) && Passes(b, c, co)
    ensures Passes(a, c, co)
  {
    if Held(a, co) { HeldStays(a, b, co); }
  }

  lemma Same(s: State, co: Coro)
    requires Alive(s, co)
    ensures Passes(s, s, co) && Untouched(s, s, co)
  {
  }

  lemma {:induction false} ResolveCarried(w: nat -> nat, s: State, h: nat, data: Value, sig: Signal, co: Coro)
    requires CanResolve(w, s, h, data) && !data.Gen? && Alive(s, co) && h != co.p
    requires Agrees(ResolveF(w, s, h, data, sig).recs, co.res)
    ensures Passes(s, ResolveF(w, s, h, data, sig), co)
    decreases Load(w, s.recs), 0
  {
    if Finished(s.recs[h]) {
      Same(s, co);
    } else {
      OkDrives(w, s, h);
      ResolveKept(w, s, h, data, sig);
      AgreesBack(s, ResolveF(w, s, h, data, sig), co.res);
      assert Apart(s, co, h);
      DriveSpares(s, h, data, sig, co.g, co.res);
      var run := Drive(s, h, data, sig);
      if run.Suspends? {
        WaitingCarried(s, h, run, co);
      } else {
        SettleOk(w, s, h, run);
        ClosedCarried(s, h, run, co);
        var s1, hs: seq<nat> := Closed(s, h, run), s.recs[h].handlers;
        DeliverKept(w, s1, hs, run.v, Settle(run.kind));
        var out := DeliverF(w, s1, hs, run.v, Settle(run.kind));
        AgreesBack(s1, out, co.res);
        assert AgreesAt(s1.recs[h], h, co.res);
        DeliverCarried(w, s1, hs, run.v, run.kind, co);
        ClosedKept(w, s, h, run);
        if multiset(hs)[co.p] == 0 { PassesTrans(s, s1, out, co); }
      }
    }
  }

  lemma {:induction false} WakeCarried(w: nat -> nat, s: State, v: Value, kind: Kind, co: Coro)
    requires CanResolve(w, s, co.p, v) && !v.Gen? && Alive(s, co) && Due(s, v, kind, co)
    requires Agrees(ResolveF(w, s, co.p, v, Settle(kind)).recs, co.res)
    ensures Carried(s, ResolveF(w, s, co.p, v, Settle(kind)), co)
    decreases Load(w, s.recs), 0
  {
    assert RecOk(w, s, co.p);
    OkDrives(w, s, co.p);
    ResolveKept(w, s, co.p, v, Settle(kind));
    AgreesBack(s, ResolveF(w, s, co.p, v, Settle(kind)), co.res);
    WakeTells(s, v, kind, co);
    var run := Drive(s, co.p, v, Settle(kind));
    if run.Suspends? {
      WakeWaits(s, run, co);
    } else {
      SettleOk(w, s, co.p, run);
      WakeCloses(s, run, co);
      var s1, hs: seq<nat> := Closed(s, co.p, run), s.recs[co.p].handlers;
      DeliverKept(w, s1, hs, run.v, Settle(run.kind));
      AgreesBack(s1, DeliverF(w, s1, hs, run.v, Settle(run.kind)), co.res);
      assert AgreesAt(s1.recs[co.p], co.p, co.res);
      DeliverCarried(w, s1, hs, run.v, run.kind, co);
    }
  }

  lemma {:induction false} OneCarried(w: nat -> nat, s: State, h: nat, v: Value, kind: Kind, co: Coro)
    requires Ok(w, s) && !v.Prom? && !v.Gen? && h < |s.recs| && Alive(s, co)
    requires Agrees(DeliverOne(w, s, h, v, Settle(kind)).recs, co.res)
    requires h == co.p ==> Due(s, v, kind, co)
    ensures var out := DeliverOne(w, s, h, v, Settle(kind)); Carried(s, out, co) && (h != co.p ==> Passes(s, out, co))
    decreases Load(w, s.recs) + w(h), 1
  {
    assert RecOk(w, s, h);
    if IsProto(s, h) {
      var s1 := CloneF(w, s, h);
      CloneCarried(w, s, h, co);
      CloneKept(w, s, h);
      RefOk(w, s1, h, -1);
      DropCarried(s1, h, co);
      DropKept(w, s1, h);
      KeptTrans(s, s1, Drop(s1, h));
      var s2 := ResolveF(w, Drop(s1, h), |s.recs|, v, Settle(kind));
      DropAgrees(s2, |s.recs|, co.res);
      ResolveCarried(w, Drop(s1, h), |s.recs|, v, Settle(kind), co);
      PassesTrans(s, Drop(s1, h), s2, co);
      DropCarried(s2, |s.recs|, co);
    } else {
      var s2 := ResolveF(w, s, h, v, Settle(kind));
      DropAgrees(s2, h, co.res);
      if h == co.p { WakeCarried(w, s, v, kind, co); } else { ResolveCarried(w, s, h, v, Settle(kind), co); }
      DropCarried(s2, h, co);
    }
  }

  lemma DropAgrees(s: State, x: nat, res: Outcomes)
    requires x < |s.recs| && Agrees(Drop(s, x).recs, res)
    ensures Agrees(s.recs, res)
  {
    forall q | 0 <= q < |s.recs| && Finished(s.recs[q]) ensures AgreesAt(s.recs[q], q, res) {
      assert AgreesAt(Drop(s, x).recs[q], q, res);
    }
  }

  /** A delivery loop carries the coroutine's story; it wakes the coroutine if it is among its handlers. */
  lemma {:induction false} DeliverCarried(w: nat -> nat, s: State, hs: seq<nat>, v: Value, kind: Kind, co: Coro)
    requires CanDeliver(w, s, hs, v) && !v.Gen? && Alive(s, co)
    requires Agrees(DeliverF(w, s, hs, v, Settle(kind)).recs, co.res)
    requires multiset(hs)[co.p] <= 1 && (multiset(hs)[co.p] == 1 ==> Due(s, v, kind, co))
    ensures var out := DeliverF(w, s, hs, v, Settle(kind));
            Carried(s, out, co) && (multiset(hs)[co.p] == 0 ==> Passes(s, out, co))
    decreases Load(w, s.recs) + SlotCost(hs, w), 2 + |hs|
  {
    if hs == [] {
      Same(s, co);
    } else {
      assert hs == [hs[0]] + hs[1..];
      var s1 := DeliverOne(w, s, hs[0], v, Settle(kind));
      var out := DeliverF(w, s1, hs[1..], v, Settle(kind));
      OneKept(w, s, hs[0], v, Settle(kind));
      DeliverKept(w, s1, hs[1..], v, Settle(kind));
      AgreesBack(s1, out, co.res);
      OneCarried(w, s, hs[0], v, kind, co);
      if hs[0] != co.p && multiset(hs[1..])[co.p] == 1 { HeldStays(s, s1, co); }
      DeliverCarried(w, s1, hs[1..], v, kind, co);
      if multiset(hs)[co.p] == 0 { PassesTrans(s, s1, out, co); }
    }
  }
}
