/** The promise engine on values: what each operation of ion_promisor.c does to the state. */
module Engine {
  import opened Values

  // ---- The coroutine driver -------------------------------------------------------------------

  /** Outcome of driving one promise: it waits for `q`, or it settles. */
  datatype Run =
    | Suspends(q: nat, gen: Option<nat>, gens: seq<Script>, log: seq<Event>)
    | Settles(v: Value, kind: Kind, gens: seq<Script>, log: seq<Event>)

  /** Settled results are never promises, so following a settled promise takes one step. */
  ghost predicate PlainResults(recs: seq<Rec>) {
    forall q | 0 <= q < |recs| :: Finished(recs[q]) ==> !recs[q].result.Prom?
  }

  /** A handle that names nothing reads as null, like an unset variable. */
  function Read(recs: seq<Rec>, gens: seq<Script>, v: Value): (r: Value)
    ensures r == v || r == Null
    ensures r.Prom? ==> r.id < |recs|
    ensures r.Gen? ==> r.g < |gens|
  {
    if (v.Prom? && v.id >= |recs|) || (v.Gen? && v.g >= |gens|) then Null else v
  }

  /** A promise waits only for an unsettled promise and settles only with something that is not one. */
  predicate RunOk(recs: seq<Rec>, n: nat, run: Run) {
    && n <= |run.gens|
    && match run
       case Suspends(q, gen, gens, _) =>
         q < |recs| && !Finished(recs[q]) && (gen.Some? ==> gen.value < |gens|)
       case Settles(v, _, _, _) => !v.Prom?
  }

  function Stage(gen: Option<nat>, v: Value, skip: bool): nat {
    if gen.Some? then 1 else if !skip && (v.Gen? || v.Prom?) then 2 else 0
  }

  function Current(gens: seq<Script>, gen: Option<nat>): Script {
    if gen.Some? && gen.value < |gens| then gens[gen.value] else Return(Null)
  }

  /** The label watch_result: inspect the value `v` just produced. */
  function Watch(recs: seq<Rec>, gens: seq<Script>, log: seq<Event>,
                 gen: Option<nat>, v: Value, kind: Kind, skip: bool): (run: Run)
    requires PlainResults(recs)
    requires gen.Some? ==> gen.value < |gens|
    ensures RunOk(recs, |gens|, run)
    decreases Stage(gen, v, skip), Current(gens, gen), if v.Prom? then 3 else 2
  {
    match Read(recs, gens, v)
    case Gen(g) =>
      if skip || gen.Some? then
        Resolved(recs, gens, log, gen, v, kind, skip)
      else (
        match gens[g]
        case Yield(y, _) => Watch(recs, gens, log, Some(g), y, kind, skip)
        case Return(_) => Watch(recs, gens, log, Some(g), Null, kind, skip)
        case Raise(e) => Watch(recs, gens[g := Return(Null)], log, None, Error(e), Failed, skip)
      )
    case Prom(q) =>
      if Finished(recs[q]) then
        Watch(recs, gens, log, gen, recs[q].result, OutcomeKind(recs[q]), skip)
      else
        Suspends(q, gen, gens, log)
    case _ => Resolved(recs, gens, log, gen, Read(recs, gens, v), kind, skip)
  }

  /** A value that needs no waiting settles the promise, or goes back into its generator. */
  function Resolved(recs: seq<Rec>, gens: seq<Script>, log: seq<Event>,
                    gen: Option<nat>, v: Value, kind: Kind, skip: bool): (run: Run)
    requires PlainResults(recs)
    requires gen.Some? ==> gen.value < |gens|
    requires !v.Prom?
    ensures RunOk(recs, |gens|, run)
    decreases Stage(gen, v, skip), Current(gens, gen), 1
  {
    match gen
    case None => Settles(v, kind, gens, log)
    case Some(g) => Feed(recs, gens, log, g, v, kind, skip)
  }

  /** The label resume_generator: send or throw `v` into generator `g`. */
  function Feed(recs: seq<Rec>, gens: seq<Script>, log: seq<Event>,
                g: nat, v: Value, kind: Kind, skip: bool): (run: Run)
    requires PlainResults(recs)
    requires g < |gens|
    ensures RunOk(recs, |gens|, run)
    decreases 1, gens[g], 0
  {
    var r := if kind.Done? then Send(v) else Throw(v);
    var sc := Continue(gens[g], r);
    var gens', log' := gens[g := Rest(sc)], log + [Resumed(g, r)];
    match sc
    case Yield(y, _) =>
      if Read(recs, gens', y).Gen? then Feed(recs, gens', log', g, y, kind, skip)
      else Watch(recs, gens', log', Some(g), y, kind, skip)
    case Return(x) => Watch(recs, gens', log', None, x, Done, true)
    case Raise(e) => Watch(recs, gens', log', None, Error(e), Failed, skip)
  }

  // ---- One turn of the driver, for the loop that runs it ---------------------------------------

  lemma WatchGenerator(recs: seq<Rec>, gens: seq<Script>, log: seq<Event>, g: nat, kind: Kind)
    requires PlainResults(recs) && g < |gens|
    ensures Watch(recs, gens, log, None, Gen(g), kind, false) ==
            if gens[g].Raise? then Watch(recs, gens[g := Return(Null)], log, None, Error(gens[g].e), Failed, false)
            else Watch(recs, gens, log, Some(g), if gens[g].Yield? then gens[g].v else Null, kind, false)
  {
  }

  lemma WatchPromise(recs: seq<Rec>, gens: seq<Script>, log: seq<Event>, gen: Option<nat>, q: nat, kind: Kind,
      skip: bool)
    requires PlainResults(recs) && q < |recs| && (gen.Some? ==> gen.value < |gens|)
    ensures Watch(recs, gens, log, gen, Prom(q), kind, skip) ==
            if Finished(recs[q]) then Watch(recs, gens, log, gen, recs[q].result, OutcomeKind(recs[q]), skip)
            else Suspends(q, gen, gens, log)
  {
  }

  lemma WatchOther(recs: seq<Rec>, gens: seq<Script>, log: seq<Event>, gen: Option<nat>, v: Value, kind: Kind,
      skip: bool)
    requires PlainResults(recs) && (gen.Some? ==> gen.value < |gens|)
    requires !(v.Gen? && v.g < |gens| && !skip && gen.None?) && !(v.Prom? && v.id < |recs|)
    ensures var x := Read(recs, gens, v);
            Watch(recs, gens, log, gen, v, kind, skip) ==
            if gen.Some? then Feed(recs, gens, log, gen.value, x, kind, skip) else Settles(x, kind, gens, log)
  {
  }

  lemma FeedTurn(recs: seq<Rec>, gens: seq<Script>, log: seq<Event>, g: nat, v: Value, kind: Kind, skip: bool)
    requires PlainResults(recs) && g < |gens|
    ensures var r := if kind.Done? then Send(v) else Throw(v);
            var sc := Continue(gens[g], r);
            var gens', log' := gens[g := Rest(sc)], log + [Resumed(g, r)];
            Feed(recs, gens, log, g, v, kind, skip) ==
            if sc.Return? then Watch(recs, gens', log', None, sc.v, Done, true)
            else if sc.Raise? then Watch(recs, gens', log', None, Error(sc.e), Failed, skip)
            else if Read(recs, gens', sc.v).Gen? then Feed(recs, gens', log', g, sc.v, kind, skip)
            else Watch(recs, gens', log', Some(g), sc.v, kind, skip)
  {
  }

  // ---- One activation of a promise ------------------------------------------------------------

  /** The callback that a signal selects, unless its arity or type hint refuses the argument. */
  function Pick(r: Rec, sig: Signal, data: Value): Callback {
    var cb := match sig
              case Settle(Done) => r.done
              case Cancel => r.canceler
              case Settle(Failed) => r.fail;
    if cb.Php? && (cb.required > 1 || (cb.args > 0 && !cb.accepts(data))) then Unset else cb
  }

  function Call(cb: Callback, data: Value): Ret
    requires !cb.Unset?
  {
    if cb.Php? then cb.body(data) else cb.action(data)
  }

  /** Only a generator function may hand the engine a generator to run. */
  predicate Skips(cb: Callback) { cb.Php? && !cb.generator }

  function AddRef(recs: seq<Rec>, i: nat, d: int): seq<Rec>
    requires i < |recs|
  {
    recs[i := recs[i].(refs := recs[i].refs + d)]
  }

  /** A woken promise drops its await link; any other is marked as processing. */
  function Started(recs: seq<Rec>, p: nat): seq<Rec>
    requires p < |recs| && (recs[p].await.Some? ==> recs[p].await.value < |recs|)
  {
    if recs[p].await.Some? then
      var r := AddRef(recs, recs[p].await.value, -1);
      r[p := r[p].(await := None)]
    else
      recs[p := recs[p].(flags := recs[p].flags.(processing := true))]
  }

  predicate CanDrive(s: State, p: nat) {
    && p < |s.recs|
    && (s.recs[p].await.Some? ==> s.recs[p].await.value < |s.recs|)
    && (s.recs[p].gen.Some? ==> s.recs[p].gen.value < |s.gens|)
  }

  /** Runs the promise to its next suspension or to its settlement. */
  function Drive(s: State, p: nat, data: Value, sig: Signal): (run: Run)
    requires CanDrive(s, p) && PlainResults(s.recs) && !data.Prom?
    ensures RunOk(s.recs, |s.gens|, run)
  {
    var r := s.recs[p];
    if r.await.Some? then
      if r.gen.Some? then Watch(s.recs, s.gens, s.log, r.gen, data, KindOf(sig), false)
      else Settles(data, KindOf(sig), s.gens, s.log)
    else
      var cb := Pick(r, sig, data);
      if cb.Unset? then
        Resolved(s.recs, s.gens, s.log, r.gen, data, KindOf(sig), false)
      else
        var log := s.log + [Called(p, sig, data, Made(Call(cb, data), |s.gens|))];
        match Call(cb, data)
        case Raises(e) => Resolved(s.recs, s.gens, log, r.gen, Error(e), Failed, false)
        case Returns(v) => Watch(s.recs, s.gens, log, r.gen, v, Done, v.Gen? && Skips(cb))
        case Fresh(sc) => Watch(s.recs, s.gens + [sc], log, r.gen, Gen(|s.gens|), Done, Skips(cb))
  }

  /** The promise starts to wait: it takes a reference to `q` and a slot among `q`'s handlers. */
  function Suspend(recs: seq<Rec>, p: nat, q: nat, gen: Option<nat>): seq<Rec>
    requires p < |recs| && q < |recs|
  {
    var r1 := recs[p := recs[p].(await := Some(q), gen := gen, refs := recs[p].refs + 1)];
    r1[q := r1[q].(handlers := r1[q].handlers + [p], refs := r1[q].refs + 1)]
  }

  function Freed(cb: Callback): Callback { if cb.Php? then Unset else cb }

  /** The settled record; its handlers now belong to the delivery loop. */
  function Settled(r: Rec, v: Value, kind: Kind): Rec {
    r.(result := v, gen := None, handlers := [],
       flags := r.flags.(processing := false, done := r.flags.done || kind.Done?,
         failed := r.flags.failed || kind.Failed?),
       done := Freed(r.done), fail := Freed(r.fail), canceler := Freed(r.canceler))
  }

  // ---- Prototypes: cloning and its cost -------------------------------------------------------

  function SlotCost(hs: seq<nat>, w: nat -> nat): nat {
    if hs == [] then 0 else w(hs[0]) + SlotCost(hs[1..], w)
  }

  function Sum(f: Rec -> nat, recs: seq<Rec>): nat {
    if recs == [] then 0 else Sum(f, recs[..|recs| - 1]) + f(recs[|recs| - 1])
  }

  /** The delivery work a record still stands for: itself while unsettled, and the prototypes in its slots. */
  function Cost(w: nat -> nat): Rec -> nat {
    (r: Rec) => if r.flags.proto then 0 else (if Finished(r) then 0 else 1) + SlotCost(r.handlers, w)
  }

  function Load(w: nat -> nat, recs: seq<Rec>): nat { Sum(Cost(w), recs) }

  lemma {:induction false} SumUpdate(f: Rec -> nat, recs: seq<Rec>, i: nat, r: Rec)
    requires i < |recs|
    ensures Sum(f, recs[i := r]) == Sum(f, recs) - f(recs[i]) + f(r)
  {
    var n := |recs| - 1;
    if i == n {
      assert recs[i := r][..n] == recs[..n];
    } else {
      assert recs[i := r][..n] == recs[..n][i := r];
      SumUpdate(f, recs[..n], i, r);
    }
  }

  lemma {:induction false} SlotCostAppend(hs: seq<nat>, x: nat, w: nat -> nat)
    ensures SlotCost(hs + [x], w) == SlotCost(hs, w) + w(x)
  {
    if hs != [] {
      assert (hs + [x])[1..] == hs[1..] + [x];
      SlotCostAppend(hs[1..], x, w);
    }
  }

  /** What every record satisfies at every call of the engine.  The weight `w` of a prototype
      exceeds the total weight of the prototypes it contains, so prototypes are acyclic. */
  ghost predicate RecOk(w: nat -> nat, s: State, i: nat)
    requires i < |s.recs|
  {
    var r := s.recs[i];
    && (forall j | 0 <= j < |r.handlers| :: r.handlers[j] < |s.recs|)
    && (r.await.Some? ==> r.await.value < |s.recs|)
    && (r.gen.Some? ==> r.gen.value < |s.gens|)
    && (Finished(r) ==>
          r.await.None? && r.handlers == [] && !r.result.Prom? && !(r.flags.done && r.flags.failed))
    && (r.gen.Some? || r.flags.processing ==> r.await.Some?)
    && (r.await.Some? && !Finished(s.recs[r.await.value]) ==> i in s.recs[r.await.value].handlers)
    && (if r.flags.proto then
          !Finished(r) && r.await.None? && !r.flags.isInternal && w(i) >= 2 + SlotCost(r.handlers, w)
        else w(i) == 0)
  }

  ghost predicate Ok(w: nat -> nat, s: State) {
    && (forall i | 0 <= i < |s.recs| :: RecOk(w, s, i))
    && (forall i | i >= |s.recs| :: w(i) == 0)
  }

}
