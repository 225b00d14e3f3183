/** What a promise does with the value it is given. */
module Activations {
  import opened Values
  import opened Engine
  import opened Cloning
  import opened Delivery
  import opened Permanence
  import opened Coroutines

  // ---- What the source promises, field by field -----------------------------------------------

  /** The promise has settled with `v`, as DONE or as FAILED. */
  predicate SettledAs(s: State, p: nat, v: Value, done: bool) {
    p < |s.recs| && s.recs[p].result == v && s.recs[p].flags.done == done && s.recs[p].flags.failed == !done
  }

  /** The slot that is asked: done, fail, or the canceler. */
  function Asked(r: Rec, sig: Signal): Callback {
    if sig == Cancel then r.canceler else if sig == Settle(Done) then r.done else r.fail
  }

  /** The slot is empty, wants more than one argument, or its type hint refuses the value. */
  predicate Declines(cb: Callback, v: Value) {
    match cb
    case Unset => true
    case Php(required, args, accepts, _, _) => required > 1 || (args > 0 && !accepts(v))
    case Internal(_) => false
  }

  /** What the function in the slot makes of the value. */
  function Reply(cb: Callback, v: Value): Ret
    requires !cb.Unset?
  {
    match cb
    case Php(_, _, _, _, body) => body(v)
    case Internal(action) => action(v)
  }

  function Resumption(g: nat, v: Value, done: bool): Event { Resumed(g, if done then Send(v) else Throw(v)) }

  /** Something that happened after `before`. */
  ghost predicate Since(before: seq<Event>, after: seq<Event>, e: Event) {
    exists k :: |before| <= k < |after| && after[k] == e
  }

  /** The slot `cb` of promise `p` has been asked with `v`: its function was called with `v` and its answer,
      when plain, is the result; a slot that declines passes `v` on.  `s` is some state before, `out` any
      state after. */
  ghost predicate Taken(cb: Callback, p: nat, sig: Signal, v: Value, s: State, out: State) {
    if Declines(cb, v) then SettledAs(out, p, v, sig == Settle(Done))
    else
      match Reply(cb, v)
      case Returns(x) => Since(s.log, out.log, Called(p, sig, v, None)) && (Plainly(x) ==> SettledAs(out, p, x, true))
      case Raises(e) => Since(s.log, out.log, Called(p, sig, v, None)) && SettledAs(out, p, Error(e), false)
      case Fresh(sc) => exists g :: |s.gens| <= g && Since(s.log, out.log, Called(p, sig, v, Some(Creation(g, sc))))
  }

  /** Promise `p`, while its record was `r`, has been given `v`.  If it was waiting, it has settled with `v`
      or its generator has been resumed with it; otherwise its slot was asked. */
  ghost predicate Given(r: Rec, p: nat, sig: Signal, v: Value, s: State, out: State) {
    var done := sig == Settle(Done);
    if r.await.None? then Taken(Asked(r, sig), p, sig, v, s, out)
    else if r.gen.None? then SettledAs(out, p, v, done)
    else (v.Gen? ==> v.g < |s.gens|) ==> Since(s.log, out.log, Resumption(r.gen.value, v, done))
  }

  // ---- Logs only grow -------------------------------------------------------------------------

  lemma {:induction false} WatchLog(recs: seq<Rec>, gens: seq<Script>, log: seq<Event>, gen: Option<nat>, v: Value,
                                    kind: Kind, skip: bool)
    requires PlainResults(recs) && (gen.Some? ==> gen.value < |gens|)
    ensures log <= Watch(recs, gens, log, gen, v, kind, skip).log
    decreases Stage(gen, v, skip), Current(gens, gen), if v.Prom? then 3 else 2
  {
    match Read(recs, gens, v)
    case Gen(g) =>
      if skip || gen.Some? { ResolvedLog(recs, gens, log, gen, v, kind, skip); }
      else {
        match gens[g]
        case Yield(y, _) => WatchLog(recs, gens, log, Some(g), y, kind, skip);
        case Return(_) => WatchLog(recs, gens, log, Some(g), Null, kind, skip);
        case Raise(e) => WatchLog(recs, gens[g := Return(Null)], log, None, Error(e), Failed, skip);
      }
    case Prom(q) =>
      if Finished(recs[q]) { WatchLog(recs, gens, log, gen, recs[q].result, OutcomeKind(recs[q]), skip); }
    case _ => ResolvedLog(recs, gens, log, gen, Read(recs, gens, v), kind, skip);
  }

  lemma {:induction false} ResolvedLog(recs: seq<Rec>, gens: seq<Script>, log: seq<Event>, gen: Option<nat>, v: Value,
                                       kind: Kind, skip: bool)
    requires PlainResults(recs) && (gen.Some? ==> gen.value < |gens|) && !v.Prom?
    ensures log <= Resolved(recs, gens, log, gen, v, kind, skip).log
    decreases Stage(gen, v, skip), Current(gens, gen), 1
  {
    if gen.Some? { FeedLog(recs, gens, log, gen.value, v, kind, skip); }
  }

  /** The first thing that happens is the send or the throw. */
  lemma {:induction false} FeedLog(recs: seq<Rec>, gens: seq<Script>, log: seq<Event>, g: nat, v: Value, kind: Kind,
                                   skip: bool)
    requires PlainResults(recs) && g < |gens|
    ensures log + [Resumed(g, if kind.Done? then Send(v) else Throw(v))] <= Feed(recs, gens, log, g, v, kind, skip).log
    decreases 1, gens[g], 0
  {
    var r := if kind.Done? then Send(v) else Throw(v);
    var sc := Continue(gens[g], r);
    var gens', log' := gens[g := Rest(sc)], log + [Resumed(g, r)];
    match sc
    case Yield(y, _) =>
      if Read(recs, gens', y).Gen? { FeedLog(recs, gens', log', g, y, kind, skip); }
      else { WatchLog(recs, gens', log', Some(g), y, kind, skip); }
    case Return(x) => WatchLog(recs, gens', log', None, x, Done, true);
    case Raise(e) => WatchLog(recs, gens', log', None, Error(e), Failed, skip);
  }

  lemma DriveLog(s: State, p: nat, data: Value, sig: Signal)
    requires CanDrive(s, p) && PlainResults(s.recs) && !data.Prom?
    ensures s.log <= Drive(s, p, data, sig).log
  {
    var r := s.recs[p];
    if r.await.Some? {
      if r.gen.Some? { WatchLog(s.recs, s.gens, s.log, r.gen, data, KindOf(sig), false); }
    } else {
      var cb := Pick(r, sig, data);
      if cb.Unset? {
        ResolvedLog(s.recs, s.gens, s.log, r.gen, data, KindOf(sig), false);
      } else {
        var log := s.log + [Called(p, sig, data, Made(Call(cb, data), |s.gens|))];
        match Call(cb, data)
        case Raises(e) => ResolvedLog(s.recs, s.gens, log, r.gen, Error(e), Failed, false);
        case Returns(v) => WatchLog(s.recs, s.gens, log, r.gen, v, Done, v.Gen? && Skips(cb));
        case Fresh(sc) => WatchLog(s.recs, s.gens + [sc], log, r.gen, Gen(|s.gens|), Done, Skips(cb));
      }
    }
  }

  lemma {:induction false} CloneLog(w: nat -> nat, s: State, t: nat)
    requires Ok(w, s) && IsProto(s, t)
    ensures s.log <= CloneF(w, s, t).log
    decreases w(t), |s.recs[t].handlers| + 1
  {
    CloneUnfolds(w, s, t);
    SlotsLog(w, s.(recs := s.recs + [Blank(s.recs[t])]), t, |s.recs|, 0);
  }

  lemma {:induction false} SlotsLog(w: nat -> nat, s: State, t: nat, c: nat, k: nat)
    requires Cloneable(w, s, t, c, k)
    ensures s.log <= CloneSlots(w, s, t, c, k).log
    decreases w(t), |s.recs[t].handlers| - k
  {
    var hs := s.recs[t].handlers;
    hide Ok, MoveSlot;
    if k < |hs| {
      SlotLighter(w, s, t, k);
      if IsProto(s, hs[k]) {
        var s1 := CloneF(w, s, hs[k]);
        var s2 := s1.(recs := PushSlot(s1.recs, c, |s.recs|));
        NestedOk(w, s, t, c, k, s1, s2);
        CloneLog(w, s, hs[k]);
        SlotsLog(w, s2, t, c, k + 1);
      } else {
        var s2 := s.(recs := MoveSlot(s.recs, t, c, k));
        MoveOk(w, s, t, c, k, s2);
        SlotsLog(w, s2, t, c, k);
      }
    }
  }

  lemma {:induction false} ResolveLog(w: nat -> nat, s: State, h: nat, data: Value, sig: Signal)
    requires CanResolve(w, s, h, data)
    ensures s.log <= ResolveF(w, s, h, data, sig).log
    decreases Load(w, s.recs), 0
  {
    if Finished(s.recs[h]) {
      ResolveStops(w, s, h, data, sig);
    } else {
      ResolveUnfolds(w, s, h, data, sig);
      DriveLog(s, h, data, sig);
      var run, hs: seq<nat> := Drive(s, h, data, sig), s.recs[h].handlers;
      hide Ok, ResolveF, Drive, Load;
      if run.Settles? { DeliverLog(w, Closed(s, h, run), hs, run.v, Settle(run.kind)); }
    }
  }

  lemma {:induction false} OneLog(w: nat -> nat, s: State, h: nat, v: Value, sig: Signal)
    requires Ok(w, s) && !v.Prom? && h < |s.recs|
    ensures s.log <= DeliverOne(w, s, h, v, sig).log
    decreases Load(w, s.recs) + w(h), 1
  {
    OneUnfolds(w, s, h, v, sig);
    hide Ok, ResolveF, DeliverOne, CloneF, Load;
    if IsProto(s, h) {
      CloneLog(w, s, h);
      ResolveLog(w, Drop(CloneF(w, s, h), h), |s.recs|, v, sig);
    } else {
      ResolveLog(w, s, h, v, sig);
    }
  }

  lemma {:induction false} DeliverLog(w: nat -> nat, s: State, hs: seq<nat>, v: Value, sig: Signal)
    requires CanDeliver(w, s, hs, v)
    ensures s.log <= DeliverF(w, s, hs, v, sig).log
    decreases Load(w, s.recs) + SlotCost(hs, w), 2 + |hs|
  {
    if hs != [] {
      DeliverUnfolds(w, s, hs, v, sig);
      hide DeliverOne, Load;
      OneLog(w, s, hs[0], v, sig);
      DeliverLog(w, DeliverOne(w, s, hs[0], v, sig), hs[1..], v, sig);
    }
  }

  // ---- The law --------------------------------------------------------------------------------

  lemma StaysSettled(s: State, s': State, p: nat, v: Value, done: bool)
    requires SettledAs(s, p, v, done) && Kept(s, s')
    ensures SettledAs(s', p, v, done)
  {
    assert KeptAt(s, s', p);
  }

  lemma HappenedFirst(before: seq<Event>, after: seq<Event>, e: Event)
    requires before + [e] <= after
    ensures Since(before, after, e)
  {
    assert after[|before|] == e;
  }

  /** A run that settles: the promise shows its outcome when everything has been delivered. */
  lemma RunShows(w: nat -> nat, s: State, p: nat, data: Value, sig: Signal)
    requires CanResolve(w, s, p, data) && !Finished(s.recs[p]) && CanDrive(s, p) && PlainResults(s.recs)
    ensures var run, out := Drive(s, p, data, sig), ResolveF(w, s, p, data, sig);
            && run.log <= out.log
            && (run.Settles? ==> SettledAs(out, p, run.v, run.kind.Done?))
            && (run.Suspends? ==> out == Waiting(s, p, run))
  {
    ResolveUnfolds(w, s, p, data, sig);
    var run, hs: seq<nat> := Drive(s, p, data, sig), s.recs[p].handlers;
    hide Ok, Drive, ResolveF;
    if run.Settles? {
      var s1 := Closed(s, p, run);
      ClosedFields(s, p, run, p);
      DeliverLog(w, s1, hs, run.v, Settle(run.kind));
      DeliverKept(w, s1, hs, run.v, Settle(run.kind));
      StaysSettled(s1, DeliverF(w, s1, hs, run.v, Settle(run.kind)), p, run.v, run.kind.Done?);
    }
  }

  /** Resolving a promise gives it the value. */
  lemma ResolveGives(w: nat -> nat, s: State, p: nat, data: Value, sig: Signal)
    requires CanResolve(w, s, p, data) && !Finished(s.recs[p])
    ensures Given(s.recs[p], p, sig, data, s, ResolveF(w, s, p, data, sig))
  {
    OkDrives(w, s, p);
    RunShows(w, s, p, data, sig);
    assert RecOk(w, s, p);
    var r, out, run := s.recs[p], ResolveF(w, s, p, data, sig), Drive(s, p, data, sig);
    hide ResolveF, Ok, RecOk;
    if r.await.Some? {
      if r.gen.Some? && (data.Gen? ==> data.g < |s.gens|) {
        WokenRun(s, p, data, sig);
        HappenedFirst(s.log, out.log, Resumption(r.gen.value, data, sig == Settle(Done)));
      }
    } else if !Declines(Asked(r, sig), data) {
      CalledRun(s, p, data, sig);
      var e := Called(p, sig, data, Made(Reply(Asked(r, sig), data), |s.gens|));
      HappenedFirst(s.log, out.log, e);
    }
  }

  lemma WokenRun(s: State, p: nat, data: Value, sig: Signal)
    requires CanDrive(s, p) && PlainResults(s.recs) && !data.Prom? && s.recs[p].await.Some? && s.recs[p].gen.Some?
    requires data.Gen? ==> data.g < |s.gens|
    ensures s.log + [Resumption(s.recs[p].gen.value, data, sig == Settle(Done))] <= Drive(s, p, data, sig).log
  {
    var g, kind := s.recs[p].gen.value, KindOf(sig);
    assert Drive(s, p, data, sig) == Watch(s.recs, s.gens, s.log, Some(g), data, kind, false)
      == Feed(s.recs, s.gens, s.log, g, data, kind, false);
    FeedLog(s.recs, s.gens, s.log, g, data, kind, false);
  }

  lemma CalledRun(s: State, p: nat, data: Value, sig: Signal)
    requires CanDrive(s, p) && PlainResults(s.recs) && !data.Prom? && s.recs[p].await.None? && s.recs[p].gen.None?
    requires !Declines(Asked(s.recs[p], sig), data)
    ensures var ret, run := Reply(Asked(s.recs[p], sig), data), Drive(s, p, data, sig);
            && s.log + [Called(p, sig, data, Made(ret, |s.gens|))] <= run.log
            && (ret.Returns? && Plainly(ret.v) ==> run.Settles? && run.v == ret.v && run.kind == Done)
            && (ret.Raises? ==> run.Settles? && run.v == Error(ret.e) && run.kind == Failed)
  {
    var cb := Pick(s.recs[p], sig, data);
    var ret := Reply(Asked(s.recs[p], sig), data);
    assert ret == Call(cb, data);
    var log := s.log + [Called(p, sig, data, Made(ret, |s.gens|))];
    match ret
    case Raises(e) =>
    case Returns(v) =>
      WatchLog(s.recs, s.gens, log, None, v, Done, v.Gen? && Skips(cb));
      if Plainly(v) { WatchOther(s.recs, s.gens, log, None, v, Done, false); }
    case Fresh(sc) => WatchLog(s.recs, s.gens + [sc], log, None, Gen(|s.gens|), Done, Skips(cb));
  }

  /** A callback that returns a promise: the promise takes over the outcome of a settled one, and waits for
      any other, as its last handler. */
  lemma ReturnsPromise(w: nat -> nat, s: State, p: nat, data: Value, sig: Signal, q: nat)
    requires CanResolve(w, s, p, data) && !Finished(s.recs[p]) && s.recs[p].await.None? && q < |s.recs|
    requires !Declines(Asked(s.recs[p], sig), data) && Reply(Asked(s.recs[p], sig), data) == Returns(Prom(q))
    ensures var out, r := ResolveF(w, s, p, data, sig), s.recs[q];
            && Since(s.log, out.log, Called(p, sig, data, None))
            && if r.flags.done || r.flags.failed then !r.result.Gen? ==> SettledAs(out, p, r.result, r.flags.done)
               else
                 && out.log == s.log + [Called(p, sig, data, None)]
                 && out.recs[p].await == Some(q) && out.recs[p].gen == None && out.recs[p].flags.processing
                 && !out.recs[p].flags.done && !out.recs[p].flags.failed && out.recs[q].handlers == r.handlers + [p]
  {
    OkDrives(w, s, p);
    RunShows(w, s, p, data, sig);
    assert RecOk(w, s, p) && RecOk(w, s, q);
    ResolveGives(w, s, p, data, sig);
    PromiseRun(s, p, data, sig, q);
    hide Ok, RecOk, ResolveF, Drive;
    var run := Drive(s, p, data, sig);
    if run.Suspends? {
      WaitingFields(s, p, run, p);
      WaitingFields(s, p, run, q);
      WaitingProcesses(s, p, run);
    }
  }

  lemma WaitingProcesses(s: State, p: nat, run: Run)
    requires CanDrive(s, p) && run.Suspends? && run.q < |s.recs|
    ensures Waiting(s, p, run).recs[p].flags.processing == (s.recs[p].await.None? || s.recs[p].flags.processing)
  {
  }

  /** The functions of user code are let go when the promise has settled; internal code stays. */
  predicate LetGo(cb: Callback, cb': Callback) {
    match cb
    case Php(_, _, _, _, _) => cb'.Unset?
    case Internal(_) => cb'.Internal?
    case Unset => cb'.Unset?
  }

  /** A promise that settles lets its callbacks go, and stops being in progress. */
  lemma SettlingLetsGo(w: nat -> nat, s: State, p: nat, data: Value, sig: Signal)
    requires CanResolve(w, s, p, data) && !Finished(s.recs[p])
    requires var r := ResolveF(w, s, p, data, sig).recs[p]; r.flags.done || r.flags.failed
    ensures var r, r' := s.recs[p], ResolveF(w, s, p, data, sig).recs[p];
            && LetGo(r.done, r'.done) && LetGo(r.fail, r'.fail) && LetGo(r.canceler, r'.canceler)
            && !r'.flags.processing && r'.await.None? && r'.gen.None? && r'.handlers == []
  {
    ResolveUnfolds(w, s, p, data, sig);
    var run, hs: seq<nat> := Drive(s, p, data, sig), s.recs[p].handlers;
    if run.Suspends? {
      WaitingFields(s, p, run, p);
    } else {
      var s1 := Closed(s, p, run);
      ClosedFields(s, p, run, p);
      hide Ok, Drive, ResolveF, Closed;
      DeliverKept(w, s1, hs, run.v, Settle(run.kind));
      assert KeptAt(s1, DeliverF(w, s1, hs, run.v, Settle(run.kind)), p);
    }
  }

  lemma PromiseRun(s: State, p: nat, data: Value, sig: Signal, q: nat)
    requires CanDrive(s, p) && PlainResults(s.recs) && !data.Prom? && s.recs[p].await.None? && s.recs[p].gen.None?
    requires !Declines(Asked(s.recs[p], sig), data) && Reply(Asked(s.recs[p], sig), data) == Returns(Prom(q))
    requires q < |s.recs|
    ensures var log, r := s.log + [Called(p, sig, data, None)], s.recs[q];
            if Finished(r) then !r.result.Gen? ==> var run := Drive(s, p, data, sig);
              run.Settles? && run.v == r.result && run.kind == OutcomeKind(r)
            else Drive(s, p, data, sig) == Suspends(q, None, s.gens, log)
  {
    var log, r := s.log + [Called(p, sig, data, None)], s.recs[q];
    assert Call(Pick(s.recs[p], sig, data), data) == Returns(Prom(q));
    assert Drive(s, p, data, sig) == Watch(s.recs, s.gens, log, None, Prom(q), Done, false);
    WatchPromise(s.recs, s.gens, log, None, q, Done, false);
    if Finished(r) && !r.result.Gen? { WatchOther(s.recs, s.gens, log, None, r.result, OutcomeKind(r), false); }
  }
}
