/** Promises as objects: the records of ion_promisor.c, updated in place. */
module Promisors {
  import opened Values
  import opened Engine
  import Cloning
  import Delivery

  class Promisor {
    const handle: nat
    var flags: Flags
    var done: Callback
    var fail: Callback
    var canceler: Callback
    var await: Promisor?
    var generator: Option<nat>
    var result: Value
    var handlers: seq<Promisor?>
    var name: Option<string>
    var refs: int
    /** The slots that a running delivery loop has taken over. */
    ghost var taken: nat

    constructor (handle: nat, flags: Flags, done: Callback, fail: Callback, canceler: Callback)
      ensures this.handle == handle && this.flags == flags && this.done == done && this.fail == fail
      ensures this.canceler == canceler && await == null && generator == None && result == Null
      ensures handlers == [] && name == None && refs == 1 && taken == 0
    {
      this.handle, this.flags := handle, flags;
      this.done, this.fail, this.canceler := done, fail, canceler;
      await, generator, result, handlers, name, refs, taken := null, None, Null, [], None, 1, 0;
    }
  }

  /** The handles in some slots, without the holes. */
  function Handles(hs: seq<Promisor?>): seq<nat> {
    if hs == [] then [] else (if hs[0] == null then [] else [hs[0].handle]) + Handles(hs[1..])
  }

  lemma {:induction false} HandlesConcat(a: seq<Promisor?>, b: seq<Promisor?>)
    ensures Handles(a + b) == Handles(a) + Handles(b)
  {
    if a == [] {
      assert a + b == b;
    } else {
      assert (a + b)[1..] == a[1..] + b;
      HandlesConcat(a[1..], b);
    }
  }

  function LinkOf(o: Promisor?): Option<nat> { if o == null then None else Some(o.handle) }

  ghost function View(o: Promisor): Rec
    reads o
  {
    Rec(o.flags, o.done, o.fail, o.canceler, LinkOf(o.await), o.generator, o.result,
        Handles(if o.taken <= |o.handlers| then o.handlers[o.taken..] else []), o.name, o.refs)
  }

  lemma WaitSteps(recs: seq<Rec>, p: nat, q: nat)
    requires p < |recs| && q < |recs|
    ensures AddRef(AddRef(Cloning.PushSlot(recs[p := recs[p].(await := Some(q))], q, p), p, 1), q, 1)
         == Suspend(recs, p, q, recs[p].gen)
  {
  }

  lemma UpdateTwice(recs: seq<Rec>, i: nat, a: Rec, b: Rec)
    requires i < |recs|
    ensures recs[i := a][i := b] == recs[i := b]
  {
  }

  /** A record with its outcome, before its callbacks are released and its handlers served. */
  function Outcome(r: Rec, v: Value, kind: Kind): Rec {
    r.(result := v, gen := None,
       flags := r.flags.(processing := false, done := r.flags.done || kind.Done?,
         failed := r.flags.failed || kind.Failed?))
  }

  /** Where the coroutine driver stands. */
  datatype Label = AtWatch | AtFeed | AtEnd | AtWait(q: nat)

  predicate LabelOk(pc: Label, gen: Option<nat>, n: nat, v: Value) {
    && (gen.Some? ==> gen.value < n)
    && (pc.AtFeed? ==> gen.Some?) && (pc.AtEnd? ==> gen.None? && !v.Prom?)
  }

  /** How the run goes on from a label. */
  ghost function RunAt(pc: Label, recs: seq<Rec>, gens: seq<Script>, log: seq<Event>,
                       gen: Option<nat>, v: Value, kind: Kind, skip: bool): Run
    requires PlainResults(recs) && LabelOk(pc, gen, |gens|, v)
  {
    match pc
    case AtWatch => Watch(recs, gens, log, gen, v, kind, skip)
    case AtFeed => Feed(recs, gens, log, gen.value, v, kind, skip)
    case AtEnd => Settles(v, kind, gens, log)
    case AtWait(q) => Suspends(q, gen, gens, log)
  }

  /** All objects, as the object store of the interpreter keeps them. */
  class World {
    var objs: seq<Promisor>
    var gens: seq<Script>
    var log: seq<Event>
    /** All objects, for frames. */
    ghost var repr: set<Promisor>
    /** The arrays that running loops are working on, as they left them. */
    ghost var pinned: map<Promisor, seq<Promisor?>>
    /** Those of them that a cloning loop is punching holes into. */
    ghost var holed: set<Promisor>

    ghost predicate In(o: Promisor)
      reads this
    {
      o.handle < |objs| && objs[o.handle] == o
    }

    ghost predicate ObjOk(o: Promisor)
      reads this, o
    {
      && o in repr
      && o.taken == (if o in pinned && o !in holed then |o.handlers| else 0)
      && (o in pinned ==> o.handlers == pinned[o])
      && (o in pinned && o !in holed ==> o.flags.done || o.flags.failed)
      && (o.await != null ==> In(o.await))
      && (forall j | 0 <= j < |o.handlers| && o.handlers[j] != null :: In(o.handlers[j]))
      && (o !in pinned ==> forall j | 0 <= j < |o.handlers| :: o.handlers[j] != null)
    }

    ghost predicate Valid()
      reads this, objs
    {
      && (forall i | 0 <= i < |objs| :: objs[i].handle == i && ObjOk(objs[i]))
      && (forall o | o in holed :: o in pinned)
      && (forall o | o in pinned :: In(o))
    }

    /** The state that the objects represent. */
    ghost function Abs(): State
      reads this, objs
    {
      State(seq(|objs|, i requires 0 <= i < |objs| reads this, objs => View(objs[i])), gens, log)
    }

    /** When a single object has changed, so has a single record. */
    twostate lemma Changed(o: Promisor)
      requires old(Valid()) && old(In(o)) && objs == old(objs) && gens == old(gens) && log == old(log)
      requires repr == old(repr) && holed == old(holed) && ObjOk(o)
      requires pinned == old(pinned) || (o in old(pinned) && pinned == old(pinned)[o := o.handlers])
      requires forall x | x in objs && x != o :: unchanged(x)
      ensures Valid() && In(o) && Abs() == old(Abs()).(recs := old(Abs()).recs[o.handle := View(o)])
    {
      hide View;
      forall i | 0 <= i < |objs|
        ensures ObjOk(objs[i]) && (i != o.handle ==> View(objs[i]) == old(View(objs[i])))
      {
        var x := objs[i];
        assert old(ObjOk(x));
        if x != o { assert x in objs && unchanged(x); }
      }
      assert Abs().recs == old(Abs()).recs[o.handle := View(o)];
    }

    lemma InObjs(o: Promisor)
      requires Valid() && In(o)
      ensures o in objs && o in repr && |Abs().recs| == |objs| && View(o) == Abs().recs[o.handle] && ObjOk(o)
      ensures Abs().gens == gens && Abs().log == log && (o in holed ==> o in pinned)
    {
    }

    lemma InRepr(o: Promisor)
      requires Valid() && In(o)
      ensures o in repr && o in objs && |Abs().recs| == |objs|
    {
    }

    lemma AtHandle(i: nat)
      requires Valid() && i < |Abs().recs|
      ensures i < |objs| && In(objs[i]) && objs[i].handle == i
    {
    }

    method Ref(o: Promisor, d: int)
      requires Valid() && In(o)
      modifies o
      ensures Valid() && Abs() == old(Abs()).(recs := AddRef(old(Abs()).recs, o.handle, d))
      ensures o.await == old(o.await) && o.generator == old(o.generator) && o.handlers == old(o.handlers)
    {
      hide Valid, Abs;
      InObjs(o);
      o.refs := o.refs + d;
      Changed(o);
    }

    /** PION_ARRAY_PUSH on the handlers of `c`. */
    method Push(c: Promisor, x: Promisor)
      requires Valid() && In(c) && In(x) && c !in pinned
      modifies c
      ensures Valid() && Abs() == old(Abs()).(recs := Cloning.PushSlot(old(Abs()).recs, c.handle, x.handle))
      ensures c.handlers == old(c.handlers) + [x] && c.await == old(c.await)
    {
      hide Valid, Abs;
      InObjs(c);
      HandlesConcat(c.handlers, [x]);
      assert Handles([x]) == [x.handle];
      c.handlers := c.handlers + [x];
      assert c.handlers[0..] == c.handlers && old(c.handlers)[0..] == old(c.handlers);
      Changed(c);
    }

    /** A new object with one reference. */
    method Alloc(flags: Flags, done: Callback, fail: Callback, canceler: Callback) returns (o: Promisor)
      requires Valid()
      modifies this`objs, this`repr
      ensures Valid() && fresh(o) && objs == old(objs) + [o] && repr == old(repr) + {o} && o !in pinned
      ensures o.handle == |old(objs)| && o.handlers == [] && o.await == null
      ensures Abs() == old(Abs()).(recs := old(Abs()).recs +
                [Rec(flags, done, fail, canceler, None, None, Null, [], None, 1)])
    {
      o := new Promisor(|objs|, flags, done, fail, canceler);
      objs := objs + [o];
      repr := repr + {o};
      assert View(o) == Rec(flags, done, fail, canceler, None, None, Null, [], None, 1);
      forall i | 0 <= i < |old(objs)| ensures objs[i].handle == i && ObjOk(objs[i]) { assert old(ObjOk(objs[i])); }
      assert Abs().recs == old(Abs()).recs + [View(o)];
    }

    /** The entry of a resolution: drop the await link, or mark the promise as processing. */
    method Enter(o: Promisor)
      requires Valid() && In(o)
      modifies o, o.await
      ensures Valid() && In(o) && Abs() == old(Abs()).(recs := Started(old(Abs()).recs, o.handle))
      ensures o.await == null && o.generator == old(o.generator)
    {
      hide Valid, Abs;
      InObjs(o);
      if o.await != null {
        Ref(o.await, -1);
        InObjs(o);
        label L:
        o.await := null;
        Changed@L(o);
      } else {
        o.flags := o.flags.(processing := true);
        Changed(o);
      }
    }

    /** The promise waits for `q`: it takes the reference that its script returned, and a slot. */
    method WaitFor(o: Promisor, q: Promisor)
      requires Valid() && In(o) && In(q) && o.await == null && q !in pinned
      modifies o, q
      ensures Valid() && Abs() == old(Abs()).(recs := Suspend(old(Abs()).recs, o.handle, q.handle, old(o.generator)))
    {
      hide Valid, Abs;
      InObjs(o);
      ghost var s := Abs();
      o.await := q;
      Changed(o);
      ghost var s1 := Abs();
      Push(q, o);
      ghost var s2 := Abs();
      Ref(o, 1);
      Ref(q, 1);
      WaitSteps(s.recs, o.handle, q.handle);
    }

    /** Callbacks, flags, generator and result have no part in the bookkeeping of a promise that no loop
        is working on; callbacks have none in that of any promise. */
    twostate lemma StillOk(o: Promisor)
      requires old(ObjOk(o)) && objs == old(objs) && repr == old(repr) && pinned == old(pinned) && holed == old(holed)
      requires unchanged(o`await) && unchanged(o`handlers) && unchanged(o`taken)
      requires o !in pinned || unchanged(o`flags)
      ensures ObjOk(o)
    {
    }

    /** ion_promisor_release: the callbacks of user code are freed. */
    method ReleaseCallbacks(o: Promisor)
      requires Valid() && In(o)
      modifies o
      ensures Valid() && Abs() == old(Abs()).(recs := old(Abs()).recs[o.handle :=
                old(View(o)).(done := Freed(old(o.done)), fail := Freed(old(o.fail)),
                  canceler := Freed(old(o.canceler)))])
      ensures o.handlers == old(o.handlers)
    {
      hide Valid, Abs, ObjOk, Handles;
      InObjs(o);
      if o.done.Php? { o.done := Callback.Unset; }
      if o.fail.Php? { o.fail := Callback.Unset; }
      if o.canceler.Php? { o.canceler := Callback.Unset; }
      StillOk(o);
      Changed(o);
    }

    /** The result and the state bits. */
    method SetOutcome(o: Promisor, v: Value, kind: Kind)
      requires Valid() && In(o) && o !in pinned
      modifies o
      ensures Valid() && Abs() == old(Abs()).(recs := old(Abs()).recs[o.handle := Outcome(old(View(o)), v, kind)])
      ensures o.handlers == old(o.handlers) && (o.flags.done || o.flags.failed)
    {
      hide Valid, Abs, ObjOk;
      InObjs(o);
      o.result := v;
      o.flags := o.flags.(processing := false, done := o.flags.done || kind.Done?,
        failed := o.flags.failed || kind.Failed?);
      o.generator := None;
      StillOk(o);
      Changed(o);
    }

    /** The slots of a settled promise pass to the delivery loop. */
    ghost method TakeOver(o: Promisor)
      requires Valid() && In(o) && o !in pinned && (o.flags.done || o.flags.failed)
      modifies o`taken, this`pinned
      ensures Valid() && pinned == old(pinned)[o := o.handlers]
      ensures Abs() == old(Abs()).(recs := old(Abs()).recs[o.handle := old(View(o)).(handlers := [])])
    {
      hide Valid, Abs;
      InObjs(o);
      o.taken := |o.handlers|;
      pinned := pinned[o := o.handlers];
      assert o.handlers[o.taken..] == [];
      Pinned(o);
    }

    /** A loop takes over or gives back an array. */
    twostate lemma Pinned(o: Promisor)
      requires old(Valid()) && old(In(o)) && objs == old(objs) && gens == old(gens) && log == old(log)
      requires repr == old(repr) && ObjOk(o) && (o in holed ==> o in pinned)
      requires forall x | x != o :: (x in pinned <==> x in old(pinned)) && (x in holed <==> x in old(holed))
      requires forall x | x != o && x in pinned :: pinned[x] == old(pinned)[x]
      requires forall x | x in objs && x != o :: unchanged(x)
      ensures Valid() && In(o) && Abs() == old(Abs()).(recs := old(Abs()).recs[o.handle := View(o)])
    {
      hide View;
      forall i | 0 <= i < |objs|
        ensures ObjOk(objs[i]) && (i != o.handle ==> View(objs[i]) == old(View(objs[i])))
      {
        var x := objs[i];
        assert old(ObjOk(x));
        if x != o { assert x in objs && unchanged(x); }
      }
      assert Abs().recs == old(Abs()).recs[o.handle := View(o)];
    }

    /** The promise settles; its slots pass to the delivery loop. */
    method Close(o: Promisor, v: Value, kind: Kind)
      requires Valid() && In(o) && o !in pinned
      modifies o, this`pinned
      ensures Valid() && Abs() == old(Abs()).(recs := old(Abs()).recs[o.handle := Settled(old(View(o)), v, kind)])
      ensures o.handlers == old(o.handlers) && pinned == old(pinned)[o := o.handlers]
    {
      hide Valid, Abs;
      ghost var s, r := Abs(), View(o);
      InObjs(o);
      SetOutcome(o, v, kind);
      InObjs(o);
      TakeOver(o);
      InObjs(o);
      ReleaseCallbacks(o);
      ghost var r1 := Outcome(r, v, kind);
      UpdateTwice(s.recs, o.handle, r1, r1.(handlers := []));
      UpdateTwice(s.recs, o.handle, r1.(handlers := []), Settled(r, v, kind));
    }

    // ---- The coroutine driver -----------------------------------------------------------------

    /** The object store has the outcomes of `recs`. */
    ghost predicate Mirrors(recs: seq<Rec>)
      reads this, objs
    {
      && |objs| == |recs| && PlainResults(recs)
      && forall i | 0 <= i < |objs| ::
           objs[i].flags.done == recs[i].flags.done && objs[i].flags.failed == recs[i].flags.failed
           && objs[i].result == recs[i].result
    }

    /** A change of the generator store and the log leaves the records alone. */
    twostate lemma Stored()
      requires old(Valid()) && objs == old(objs) && holed == old(holed) && pinned == old(pinned) && repr == old(repr)
      requires forall x | x in objs :: unchanged(x)
      ensures Valid() && Abs() == State(old(Abs()).recs, gens, log)
    {
      forall i | 0 <= i < |objs| ensures objs[i].handle == i && ObjOk(objs[i]) && View(objs[i]) == old(View(objs[i])) {
        assert objs[i] in objs && unchanged(objs[i]) && old(ObjOk(objs[i]));
      }
      assert Abs().recs == old(Abs()).recs;
    }

    ghost predicate GenOk(o: Promisor)
      reads this, o
    {
      o.generator.Some? ==> o.generator.value < |gens|
    }

    /** The label watch_result, once. */
    method Inspect(o: Promisor, given: Value, givenKind: Kind, skip: bool, ghost recs: seq<Rec>)
      returns (pc: Label, v: Value, kind: Kind)
      requires In(o) && Mirrors(recs) && GenOk(o)
      modifies this`gens, o`generator
      ensures LabelOk(pc, o.generator, |gens|, v)
      ensures RunAt(pc, recs, gens, log, o.generator, v, kind, skip)
           == old(Watch(recs, gens, log, o.generator, given, givenKind, skip))
      ensures !pc.AtWatch? ==>
                && o.generator == old(o.generator) && gens == old(gens)
                && Stage(o.generator, v, skip) <= Stage(old(o.generator), given, skip)
      ensures pc.AtWatch? ==>
                || Stage(o.generator, v, skip) < Stage(old(o.generator), given, skip)
                || (o.generator == old(o.generator) && gens == old(gens) && given.Prom? && !v.Prom?)
    {
      hide Watch, Feed, Resolved;
      pc, v, kind := AtWatch, given, givenKind;
      if v.Gen? && v.g < |gens| && !skip && o.generator.None? {
        var g := v.g;
        WatchGenerator(recs, gens, log, g, kind);
        match gens[g]
        case Yield(y, _) => o.generator, v := Some(g), y;
        case Return(_) => o.generator, v := Some(g), Null;
        case Raise(e) => gens := gens[g := Return(Null)]; v, kind := Error(e), Failed;
      } else if v.Prom? && v.id < |objs| {
        var q := objs[v.id];
        WatchPromise(recs, gens, log, o.generator, v.id, kind, skip);
        if q.flags.done || q.flags.failed {
          v, kind := q.result, if q.flags.done then Done else Failed;
        } else {
          pc := AtWait(v.id);
        }
      } else {
        WatchOther(recs, gens, log, o.generator, v, kind, skip);
        if v.Prom? || (v.Gen? && v.g >= |gens|) { v := Null; }
        pc := if o.generator.Some? then AtFeed else AtEnd;
      }
    }

    /** The label resume_generator, once. */
    method ResumeOnce(o: Promisor, given: Value, givenKind: Kind, givenSkip: bool, ghost recs: seq<Rec>)
      returns (pc: Label, v: Value, kind: Kind, skip: bool)
      requires In(o) && Mirrors(recs) && o.generator.Some? && o.generator.value < |gens|
      modifies this`gens, this`log, o`generator
      ensures LabelOk(pc, o.generator, |gens|, v)
      ensures RunAt(pc, recs, gens, log, o.generator, v, kind, skip)
           == old(Feed(recs, gens, log, o.generator.value, given, givenKind, givenSkip))
      ensures if o.generator.None? then Stage(None, v, skip) == 0
              else o.generator == old(o.generator) && gens[o.generator.value] < old(gens[o.generator.value])
    {
      hide Watch, Feed, Resolved;
      pc, v, kind, skip := AtWatch, given, givenKind, givenSkip;
      var g := o.generator.value;
      FeedTurn(recs, gens, log, g, v, kind, skip);
      var r := if kind.Done? then Send(v) else Throw(v);
      var sc := Continue(gens[g], r);
      gens := gens[g := Rest(sc)];
      log := log + [Resumed(g, r)];
      match sc
      case Yield(y, _) =>
        v := y;
        if y.Gen? && y.g < |gens| { pc := AtFeed; }
      case Return(x) => o.generator, v, kind, skip := None, x, Done, true;
      case Raise(e) => o.generator, v, kind := None, Error(e), Failed;
    }

    /** The labels watch_result and resume_generator: runs until the promise waits or has its outcome. */
    method Spin(o: Promisor, start: Value, startKind: Kind, startSkip: bool, ghost recs: seq<Rec>)
      returns (pc: Label, v: Value, kind: Kind)
      requires In(o) && Mirrors(recs) && GenOk(o)
      modifies this`gens, this`log, o`generator
      ensures (pc.AtEnd? || pc.AtWait?) && LabelOk(pc, o.generator, |gens|, v)
      ensures RunAt(pc, recs, gens, log, o.generator, v, kind, false)
           == old(Watch(recs, gens, log, o.generator, start, startKind, startSkip))
    {
      hide Watch, Feed, Resolved;
      pc, v, kind := AtWatch, start, startKind;
      var skip := startSkip;
      ghost var run := Watch(recs, gens, log, o.generator, start, startKind, startSkip);
      while pc.AtWatch? || pc.AtFeed?
        invariant In(o) && Mirrors(recs) && LabelOk(pc, o.generator, |gens|, v)
        invariant RunAt(pc, recs, gens, log, o.generator, v, kind, skip) == run
        decreases Stage(o.generator, v, skip), Current(gens, o.generator), if pc.AtWatch? then (if v.Prom?
                  then 3 else 2) else 0
      {
        if pc.AtWatch? {
          pc, v, kind := Inspect(o, v, kind, skip, recs);
        } else {
          pc, v, kind, skip := ResumeOnce(o, v, kind, skip, recs);
        }
      }
    }

    twostate predicate OnlyGenerator(o: Promisor)
      reads o
    {
      && unchanged(o`flags) && unchanged(o`done) && unchanged(o`fail) && unchanged(o`canceler)
      && unchanged(o`await) && unchanged(o`result) && unchanged(o`handlers) && unchanged(o`name)
      && unchanged(o`refs) && unchanged(o`taken)
    }

    /** Driving a promise changes its generator field, the generator store and the log. */
    twostate lemma Drove(o: Promisor)
      requires old(Valid()) && old(In(o)) && objs == old(objs) && holed == old(holed)
      requires pinned == old(pinned) && repr == old(repr)
      requires forall x | x in objs && x != o :: unchanged(x)
      requires OnlyGenerator(o)
      ensures Valid() && In(o)
      ensures Abs() == State(old(Abs()).recs[o.handle := old(View(o)).(gen := o.generator)], gens, log)
    {
      assert View(o) == old(View(o)).(gen := o.generator);
      hide View;
      forall i | 0 <= i < |objs|
        ensures ObjOk(objs[i]) && (i != o.handle ==> View(objs[i]) == old(View(objs[i])))
      {
        var x := objs[i];
        assert old(ObjOk(x));
        if x != o { assert x in objs && unchanged(x); }
      }
      assert Abs().recs == old(Abs()).recs[o.handle := View(o)];
    }

    lemma MirrorsAbs(recs: seq<Rec>, p: nat)
      requires Valid() && PlainResults(recs) && p < |recs| && (recs[p].await.Some? ==> recs[p].await.value < |recs|)
      requires Abs().recs == Started(recs, p)
      ensures Mirrors(recs)
    {
      forall i | 0 <= i < |objs|
        ensures objs[i].flags.done == recs[i].flags.done && objs[i].flags.failed == recs[i].flags.failed
                && objs[i].result == recs[i].result
      {
        assert View(objs[i]) == Started(recs, p)[i];
      }
    }

    /** The callback that a signal selects, unless it refuses the argument. */
    method Select(o: Promisor, data: Value, sig: Signal) returns (cb: Callback)
      ensures cb == Pick(View(o), sig, data)
    {
      match sig {
        case Settle(Done) => cb := o.done;
        case Cancel => cb := o.canceler;
        case Settle(Failed) => cb := o.fail;
      }
      if cb.Php? {
        if cb.required > 1 {
          cb := Callback.Unset;
        } else if cb.args > 0 && !cb.accepts(data) {
          cb := Callback.Unset;
        }
      }
    }

    /** Calls the callback and runs the coroutine that it may start. */
    method Activate(o: Promisor, data: Value, sig: Signal, ghost recs: seq<Rec>)
      returns (pc: Label, v: Value, kind: Kind)
      requires In(o) && Mirrors(recs) && o.generator == None && !data.Prom?
      modifies this`gens, this`log, o`generator
      ensures (pc.AtEnd? || pc.AtWait?) && LabelOk(pc, o.generator, |gens|, v)
      ensures RunAt(pc, recs, gens, log, o.generator, v, kind, false)
           == var cb := Pick(old(View(o)), sig, data);
              if cb.Unset? then Settles(data, KindOf(sig), old(gens), old(log))
              else
                var log1 := old(log) + [Called(o.handle, sig, data, Made(Call(cb, data), |old(gens)|))];
                match Call(cb, data)
                case Raises(e) => Settles(Error(e), Failed, old(gens), log1)
                case Returns(x) => Watch(recs, old(gens), log1, None, x, Done, x.Gen? && Skips(cb))
                case Fresh(sc) => Watch(recs, old(gens) + [sc], log1, None, Gen(|old(gens)|), Done, Skips(cb))
    {
      var cb := Select(o, data, sig);
      if cb.Unset? {
        pc, v, kind := AtEnd, data, KindOf(sig);
      } else {
        var ret := Call(cb, data);
        log := log + [Called(o.handle, sig, data, Made(ret, |gens|))];
        match ret
        case Raises(e) => pc, v, kind := AtEnd, Error(e), Failed;
        case Returns(x) => pc, v, kind := Spin(o, x, Done, x.Gen? && Skips(cb), recs);
        case Fresh(sc) =>
          gens := gens + [sc];
          pc, v, kind := Spin(o, Gen(|gens| - 1), Done, Skips(cb), recs);
      }
    }

    /** The records of `s` once `o` has entered its activation and runs generator `gen`. */
    ghost function Entered(s: State, p: nat, gen: Option<nat>): seq<Rec>
      requires CanDrive(s, p)
    {
      Started(s.recs, p)[p := Started(s.recs, p)[p].(gen := gen)]
    }

    /** The body of an activation: a woken promise takes the value, any other calls its callback. */
    method Go(o: Promisor, woken: bool, data: Value, sig: Signal, ghost s: State)
        returns (pc: Label, v: Value, kind: Kind)
      requires In(o) && CanDrive(s, o.handle) && Mirrors(s.recs) && s.gens == gens && s.log == log && !data.Prom?
      requires woken == s.recs[o.handle].await.Some? && (!woken ==> o.generator == None)
               && o.generator == s.recs[o.handle].gen
      requires o.done == s.recs[o.handle].done && o.fail == s.recs[o.handle].fail
               && o.canceler == s.recs[o.handle].canceler
      modifies this`gens, this`log, o`generator
      ensures (pc.AtEnd? || pc.AtWait?) && LabelOk(pc, o.generator, |gens|, v)
      ensures Drive(s, o.handle, data, sig) == RunAt(pc, s.recs, gens, log, o.generator, v, kind, false)
    {
      if !woken {
        pc, v, kind := Activate(o, data, sig, s.recs);
      } else if o.generator.Some? {
        pc, v, kind := Spin(o, data, KindOf(sig), false, s.recs);
      } else {
        pc, v, kind := AtEnd, data, KindOf(sig);
      }
    }

    /** Everything of an activation but its end. */
    method Advance(o: Promisor, data: Value, sig: Signal, ghost s: State) returns (pc: Label, v: Value, kind: Kind)
      requires Valid() && In(o) && s == Abs() && CanDrive(s, o.handle) && PlainResults(s.recs) && !data.Prom?
      requires o.await == null ==> o.generator == None
      modifies this`gens, this`log, o, o.await
      ensures Valid() && In(o) && o.await == null && Abs() == State(Entered(s, o.handle, o.generator), gens, log)
      ensures (pc.AtEnd? || pc.AtWait?) && LabelOk(pc, o.generator, |gens|, v)
      ensures Drive(s, o.handle, data, sig) == RunAt(pc, s.recs, gens, log, o.generator, v, kind, false)
    {
      hide Valid, Abs;
      InObjs(o);
      var woken := o.await != null;
      Enter(o);
      MirrorsAbs(s.recs, o.handle);
      InObjs(o);
      label L:
      pc, v, kind := Go(o, woken, data, sig, s);
      Drove@L(o);
    }

    /** Runs `o` to its next suspension, which it enters, or to its outcome, with which it settles. */
    method Run(o: Promisor, data: Value, sig: Signal, ghost w: nat -> nat) returns (settled: bool, v: Value, kind: Kind)
      requires Valid() && In(o) && Delivery.CanResolve(w, Abs(), o.handle, data) && !Finished(View(o)) && holed == {}
      modifies this`gens, this`log, this`pinned, repr
      ensures Valid() && CanDrive(old(Abs()), o.handle) && PlainResults(old(Abs()).recs)
      ensures var run := Drive(old(Abs()), o.handle, data, sig);
              settled == run.Settles?
              && (settled ==> v == run.v && kind == run.kind && Abs() == Delivery.Closed(old(Abs()), o.handle, run))
              && (!settled ==> Abs() == Delivery.Waiting(old(Abs()), o.handle, run))
      ensures pinned == if settled then old(pinned)[o := o.handlers] else old(pinned)
      ensures old(o !in pinned) && (settled ==> Handles(o.handlers) == old(Abs()).recs[o.handle].handlers)
      ensures settled ==> forall j | 0 <= j < |o.handlers| :: o.handlers[j] != null
    {
      hide Valid, Abs;
      ghost var s := Abs();
      Delivery.OkDrives(w, s, o.handle);
      assert RecOk(w, s, o.handle);
      InObjs(o);
      assert o.handlers[0..] == o.handlers;
      if o.await != null { InObjs(o.await); }
      var pc: Label;
      pc, v, kind := Advance(o, data, sig, s);
      settled := pc.AtEnd?;
      if settled {
        Settle(o, v, kind, s);
      } else {
        AtHandle(pc.q);
        var q := objs[pc.q];
        InObjs(q);
        assert View(q) == Entered(s, o.handle, o.generator)[pc.q];
        Wait(o, q, s);
      }
    }

    method Settle(o: Promisor, v: Value, kind: Kind, ghost s: State)
      requires Valid() && In(o) && CanDrive(s, o.handle) && Abs() == State(Entered(s, o.handle, o.generator), gens, log)
      requires o !in pinned
      modifies o, this`pinned
      ensures Valid() && Abs() == Delivery.Closed(s, o.handle, Settles(v, kind, gens, log))
      ensures pinned == old(pinned)[o := o.handlers] && Handles(o.handlers) == s.recs[o.handle].handlers
      ensures forall j | 0 <= j < |o.handlers| :: o.handlers[j] != null
    {
      hide Valid, Abs;
      InObjs(o);
      assert o.handlers[0..] == o.handlers;
      ghost var r := Started(s.recs, o.handle)[o.handle];
      Close(o, v, kind);
      assert Settled(r.(gen := old(o.generator)), v, kind) == Settled(r, v, kind);
      UpdateTwice(Started(s.recs, o.handle), o.handle, r.(gen := old(o.generator)), Settled(r, v, kind));
    }

    method Wait(o: Promisor, q: Promisor, ghost s: State)
      requires Valid() && In(o) && CanDrive(s, o.handle) && Abs() == State(Entered(s, o.handle, o.generator), gens, log)
      requires |s.recs| == |objs| && In(q) && q !in pinned && o.await == null
      modifies o, q
      ensures Valid() && Abs() == Delivery.Waiting(s, o.handle, Suspends(q.handle, old(o.generator), gens, log))
    {
      hide Valid, Abs;
      InObjs(o);
      WaitFor(o, q);
      EnteredSuspends(Started(s.recs, o.handle), o.handle, q.handle, old(o.generator));
    }

    // ---- Slots with holes ---------------------------------------------------------------------

    /** The slot's pointer is set to NULL; the other slots stay where they are. */
    method NullSlot(t: Promisor, i: nat)
      requires Valid() && In(t) && t in holed && i < |t.handlers| && t.handlers[i] != null
      modifies t, this`pinned
      ensures Valid() && t.handlers == old(t.handlers)[i := null] && pinned == old(pinned)[t := t.handlers]
      ensures |Handles(old(t.handlers)[..i])| < |old(Abs()).recs[t.handle].handlers|
      ensures Abs() == old(Abs()).(recs := Cloning.DropSlot(old(Abs()).recs, t.handle, |Handles(old(t.handlers)[..i])|))
    {
      hide Valid, Abs;
      InObjs(t);
      HoleHandles(t.handlers, i);
      assert t.handlers[0..] == t.handlers;
      t.handlers := t.handlers[i := null];
      pinned := pinned[t := t.handlers];
      assert t.handlers[0..] == t.handlers;
      Changed(t);
    }

    /** An await link on `t` follows the handler to `c`. */
    method Follow(x: Promisor, t: Promisor, c: Promisor)
      requires Valid() && In(x) && In(t) && In(c) && x != c && x != t
      modifies x, t, c
      ensures Valid() && Abs() == old(Abs()).(recs := Cloning.Relink(old(Abs()).recs, x.handle, t.handle, c.handle))
      ensures t.handlers == old(t.handlers) && c.handlers == old(c.handlers) && x.handlers == old(x.handlers)
    {
      hide Valid, Abs;
      InObjs(x);
      if x.await == t {
        x.await := c;
        Changed(x);
        Ref(c, 1);
        Ref(t, -1);
      } else if x.await != null {
        assert ObjOk(x);
      }
    }

    /** ion_promisor_cleanup: the holes are squeezed out into a new array of the exact size. */
    method Cleanup(t: Promisor, removed: nat)
      requires Valid() && In(t) && t in holed && removed == |t.handlers| - |Packed(t.handlers)|
      modifies t, this`pinned, this`holed
      ensures Valid() && Abs() == old(Abs()) && t.handlers == Packed(old(t.handlers))
      ensures pinned == old(pinned) - {t} && holed == old(holed) - {t}
    {
      hide Valid, Abs;
      InObjs(t);
      PackedFacts(t.handlers);
      PackedAll(t.handlers);
      if removed > 0 {
        if |t.handlers| - removed > 0 {
          t.handlers := Squeeze(t.handlers, |t.handlers| - removed);
        } else {
          t.handlers := [];
        }
      }
      pinned, holed := pinned - {t}, holed - {t};
      Repacked(t);
    }

    /** Replacing the slots by what is left of them is invisible. */
    twostate lemma Repacked(t: Promisor)
      requires old(Valid()) && old(In(t)) && objs == old(objs) && gens == old(gens) && log == old(log)
               && repr == old(repr)
      requires t in old(holed) && pinned == old(pinned) - {t} && holed == old(holed) - {t}
      requires forall x | x in objs && x != t :: unchanged(x)
      requires unchanged(t`flags) && unchanged(t`done) && unchanged(t`fail) && unchanged(t`canceler)
      requires unchanged(t`await) && unchanged(t`result) && unchanged(t`generator) && unchanged(t`name)
      requires unchanged(t`refs) && unchanged(t`taken) && t.handlers == Packed(old(t.handlers))
      ensures Valid() && Abs() == old(Abs())
    {
      PackedFacts(old(t.handlers));
      assert old(ObjOk(t));
      assert t.handlers[0..] == t.handlers && old(t.handlers)[0..] == old(t.handlers);
      forall j | 0 <= j < |t.handlers| ensures t.handlers[j] != null && In(t.handlers[j]) {
        assert Packed(old(t.handlers))[j] in old(t.handlers);
      }
      Pinned(t);
      assert Abs().recs == old(Abs()).recs;
    }

    // ---- Cloning ------------------------------------------------------------------------------

    /** The autoclean hook. */
    method TryClean(t: Promisor)
      requires Valid() && In(t) && t !in pinned
      modifies this`log
      ensures Valid() && Abs() == Cloning.TryClean(old(Abs()), t.handle)
    {
      hide Valid, Abs;
      InObjs(t);
      assert t.handlers[0..] == t.handlers;
      Unholed(t.handlers);
      if t.flags.autoclean && |t.handlers| == 0 && !t.canceler.Unset? {
        log := log + [Cleaned(t.handle)];
      }
      Stored();
    }

    /** One turn of the cloning loop, for an external handler. */
    method MoveTo(t: Promisor, c: Promisor, i: nat)
      requires Valid() && In(t) && In(c) && t in holed && c !in pinned && i < |t.handlers|
      requires t.handlers[i] != null && t.handlers[i] != t && t.handlers[i] != c
      modifies t, c, t.handlers[i], this`pinned
      ensures Valid() && t.handlers == old(t.handlers)[i := null] && pinned == old(pinned)[t := t.handlers]
      ensures |Handles(old(t.handlers)[..i])| < |old(Abs()).recs[t.handle].handlers|
      ensures old(Abs()).recs[t.handle].handlers[|Handles(old(t.handlers)[..i])|] == old(t.handlers)[i].handle
      ensures Abs() == old(Abs()).(recs := Cloning.MoveSlot(old(Abs()).recs, t.handle, c.handle,
              |Handles(old(t.handlers)[..i])|))
    {
      hide Valid, Abs;
      var x := t.handlers[i];
      HoleHandles(t.handlers, i);
      assert t.handlers[0..] == t.handlers;
      InObjs(t);
      Push(c, x);
      Follow(x, t, c);
      NullSlot(t, i);
    }

    /** A call adds objects and leaves the loops around it alone. */
    twostate predicate Grown()
      reads this
    {
      old(objs) <= objs && old(repr) <= repr && fresh(repr - old(repr)) && pinned == old(pinned) && holed == old(holed)
    }

    /** The loops around a clone are working on heavier prototypes. */
    ghost predicate Outer(w: nat -> nat, t: Promisor)
      reads this
    {
      forall z | z in holed :: w(z.handle) > w(t.handle)
    }

    /** ion_promisor_clone. */
    method Clone(t: Promisor, ghost w: nat -> nat) returns (c: Promisor)
      requires Valid() && In(t) && Ok(w, Abs()) && t.flags.proto && Outer(w, t)
      modifies this, repr
      ensures Valid() && Grown() && c.handle == |old(objs)| && In(c) && c !in pinned
      ensures Ok(w, old(Abs())) && Cloning.IsProto(old(Abs()), t.handle)
      ensures Abs() == Cloning.CloneF(w, old(Abs()), t.handle)
      decreases w(t.handle), 2
    {
      hide Cloning.CloneSlots, Cloning.CloneF, Cloning.Cloneable, Ok, Valid, Abs, ObjOk, View, Handles;
      ghost var s := Abs();
      ProtoIdle(t, w);
      InRepr(t);
      Cloning.CloneUnfolds(w, s, t.handle);
      c := Alloc(t.flags.(proto := false), t.done, t.fail, Callback.Unset);
      ghost var before := objs;
      if |t.handlers| > 0 {
        CloneAll(t, c, w);
        TryClean(t);
        Prefix(old(objs), before, objs);
      }
    }

    lemma ProtoIdle(t: Promisor, w: nat -> nat)
      requires Valid() && In(t) && Ok(w, Abs()) && t.flags.proto && Outer(w, t)
      ensures Cloning.IsProto(Abs(), t.handle) && t !in pinned && t.await == null
      ensures Abs().recs[t.handle].handlers == [] <==> |t.handlers| == 0
      ensures Cloning.Blank(Abs().recs[t.handle])
           == Rec(t.flags.(proto := false), t.done, t.fail, Callback.Unset, None, None, Null, [], None, 1)
    {
      InObjs(t);
      assert RecOk(w, Abs(), t.handle);
      assert t.handlers[0..] == t.handlers;
      Unholed(t.handlers);
    }

    /** The cloning loop before slot `i`: what is left to do leads to `total`. */
    ghost predicate CloneLoop(w: nat -> nat, t: Promisor, c: Promisor, i: nat, removed: nat, total: State)
      reads this, objs, t
    {
      && Valid() && In(t) && In(c) && t in holed && c !in pinned && t != c && i <= |t.handlers|
      && (forall j | i <= j < |t.handlers| :: t.handlers[j] != null)
      && (forall z | z in holed && z != t :: w(z.handle) > w(t.handle))
      && removed + |Handles(t.handlers[..i])| == i
      && Cloning.Cloneable(w, Abs(), t.handle, c.handle, |Handles(t.handlers[..i])|)
      && Cloning.CloneSlots(w, Abs(), t.handle, c.handle, |Handles(t.handlers[..i])|) == total
    }

    /** As `Grown`, while a loop works on `t`. */
    twostate predicate GrownBut(t: Promisor)
      reads this, t
    {
      && old(objs) <= objs && old(repr) <= repr && fresh(repr - old(repr))
      && holed == old(holed) && pinned == old(pinned)[t := t.handlers]
    }

    lemma CloneLoopDone(w: nat -> nat, t: Promisor, c: Promisor, removed: nat, total: State)
      requires CloneLoop(w, t, c, |t.handlers|, removed, total)
      ensures removed == |t.handlers| - |Packed(t.handlers)| && Abs() == total
    {
      InObjs(t);
      assert t.handlers[..|t.handlers|] == t.handlers == t.handlers[0..];
      PackedFacts(t.handlers);
      Unholed(Packed(t.handlers));
    }

    /** The loop over the slots of a prototype, and the cleanup of the holes it leaves. */
    method CloneAll(t: Promisor, c: Promisor, ghost w: nat -> nat)
      requires Valid() && In(t) && In(c) && t !in pinned && c !in pinned && Outer(w, t)
      requires Cloning.Cloneable(w, Abs(), t.handle, c.handle, 0)
      modifies this, repr
      ensures Valid() && Grown() && Cloning.Cloneable(w, old(Abs()), t.handle, c.handle, 0)
      ensures Abs() == Cloning.CloneSlots(w, old(Abs()), t.handle, c.handle, 0)
      decreases w(t.handle), 1
    {
      hide Cloning.CloneSlots, Ok, Valid, Abs;
      ghost var total := Cloning.CloneSlots(w, Abs(), t.handle, c.handle, 0);
      InObjs(t);
      Hold(t);
      label L:
      var removed := SlotLoop(t, c, w, total);
      CloneLoopDone(w, t, c, removed, total);
      Cleanup(t, removed);
      assert old(pinned)[t := old@L(t.handlers)] - {t} == old(pinned);
    }

    method SlotLoop(t: Promisor, c: Promisor, ghost w: nat -> nat, ghost total: State) returns (removed: nat)
      requires CloneLoop(w, t, c, 0, 0, total) && t in pinned && pinned[t] == t.handlers
      modifies this, repr
      ensures CloneLoop(w, t, c, |t.handlers|, removed, total) && GrownBut(t)
      decreases w(t.handle), 1, 0
    {
      hide CloneLoop;
      removed := 0;
      var i := 0;
      assert pinned[t := t.handlers] == pinned;
      while i < |t.handlers|
        invariant i <= |t.handlers| == |old(t.handlers)| && GrownBut(t)
        invariant CloneLoop(w, t, c, i, removed, total)
      {
        var moved := CloneSlot(t, c, i, removed, w, total);
        if moved { removed := removed + 1; }
        i := i + 1;
      }
    }

    /** A cloning loop takes an array into its hands. */
    ghost method Hold(t: Promisor)
      requires Valid() && In(t) && t !in pinned
      modifies this`holed, this`pinned
      ensures Valid() && Abs() == old(Abs()) && holed == old(holed) + {t} && pinned == old(pinned)[t := t.handlers]
    {
      hide Valid, Abs;
      InObjs(t);
      holed, pinned := holed + {t}, pinned[t := t.handlers];
      Pinned(t);
      assert Abs().recs == old(Abs()).recs;
    }

    /** The slots of `t` and the handles of its record, around slot `i`. */
    lemma SlotHandles(t: Promisor, i: nat)
      requires Valid() && In(t) && t in holed && i < |t.handlers| && t.handlers[i] != null
      ensures var k, h := |Handles(t.handlers[..i])|, t.handlers[i];
              && t.handle < |Abs().recs| && Abs().recs[t.handle].handlers == Handles(t.handlers)
              && k < |Handles(t.handlers)| && Handles(t.handlers)[k] == h.handle && In(h) && h in repr
              && View(h) == Abs().recs[h.handle] && pinned[t] == t.handlers
              && Cloning.IsProto(Abs(), h.handle) == h.flags.proto
      ensures Handles(t.handlers[..i + 1]) == Handles(t.handlers[..i]) + [t.handlers[i].handle]
      ensures Handles(t.handlers[i := null][..i + 1]) == Handles(t.handlers[..i])
    {
      var h := t.handlers[i];
      InObjs(t);
      HoleHandles(t.handlers, i);
      assert t.handlers[0..] == t.handlers;
      InObjs(h);
      assert t.handlers[..i + 1] == t.handlers[..i] + [h] && t.handlers[i := null][..i + 1] == t.handlers[..i] + [null];
      HandlesConcat(t.handlers[..i], [h]);
      HandlesConcat(t.handlers[..i], [null]);
      assert Handles([h]) == [h.handle] && Handles([null]) == [];
    }

    /** One turn of the cloning loop. */
    method CloneSlot(t: Promisor, c: Promisor, i: nat, ghost removed: nat, ghost w: nat -> nat, ghost total: State)
      returns (moved: bool)
      requires CloneLoop(w, t, c, i, removed, total) && i < |t.handlers|
      modifies this, repr
      ensures CloneLoop(w, t, c, i + 1, removed + if moved then 1 else 0, total)
      ensures GrownBut(t) && |t.handlers| == |old(t.handlers)|
      decreases w(t.handle), 0
    {
      hide Cloning.CloneSlots, Cloning.CloneF, Cloning.Cloneable, Ok, Valid, Abs;
      var h := t.handlers[i];
      SlotHandles(t, i);
      Cloning.SlotsFacts(w, Abs(), t.handle, c.handle, |Handles(t.handlers[..i])|);
      if h.flags.proto {
        moved := false;
        if h.await != t { NestedSlot(t, c, i, removed, w, total); }
      } else {
        moved := true;
        MovedSlot(t, c, i, removed, w, total);
      }
    }

    method NestedSlot(t: Promisor, c: Promisor, i: nat, ghost removed: nat, ghost w: nat -> nat, ghost total: State)
      requires CloneLoop(w, t, c, i, removed, total) && i < |t.handlers| && t.handlers[i].flags.proto
      modifies this, repr
      ensures CloneLoop(w, t, c, i + 1, removed, total) && GrownBut(t) && t.handlers == old(t.handlers)
      decreases w(t.handle), 0, 0
    {
      hide Cloning.CloneSlots, Cloning.CloneF, Cloning.Cloneable, Ok, Valid, Abs, ObjOk, View, Handles;
      var h := t.handlers[i];
      ghost var s, k := Abs(), |Handles(t.handlers[..i])|;
      SlotHandles(t, i);
      InObjs(t);
      Cloning.SlotsFacts(w, s, t.handle, c.handle, k);
      var d := Clone(h, w);
      InObjs(t);
      InObjs(c);
      Push(c, d);
      Cloning.NestedUnfolds(w, s, t.handle, c.handle, k, Abs());
      assert t.handlers == old(t.handlers) && old(pinned)[t := t.handlers] == old(pinned);
    }

    method MovedSlot(t: Promisor, c: Promisor, i: nat, ghost removed: nat, ghost w: nat -> nat, ghost total: State)
      requires CloneLoop(w, t, c, i, removed, total) && i < |t.handlers| && !t.handlers[i].flags.proto
      modifies this, repr
      ensures CloneLoop(w, t, c, i + 1, removed + 1, total) && GrownBut(t) && t.handlers == old(t.handlers)[i := null]
    {
      hide Cloning.CloneSlots, Cloning.CloneF, Cloning.Cloneable, Ok, Valid, Abs, ObjOk, View, Handles;
      ghost var s, k := Abs(), |Handles(t.handlers[..i])|;
      SlotHandles(t, i);
      Cloning.SlotsFacts(w, s, t.handle, c.handle, k);
      InRepr(t);
      InRepr(c);
      MoveTo(t, c, i);
      Cloning.MovedUnfolds(w, s, t.handle, c.handle, k, Abs());
    }

    // ---- Delivery -----------------------------------------------------------------------------

    /** ion_promisor_resolve. */
    method Resolve(o: Promisor, data: Value, sig: Signal, ghost w: nat -> nat)
      requires Valid() && In(o) && holed == {} && Delivery.CanResolve(w, Abs(), o.handle, data)
      modifies this, repr
      ensures Valid() && Grown()
      ensures Abs() == Delivery.ResolveF(w, old(Abs()), o.handle, data, sig)
      decreases Load(w, Abs().recs), 0
    {
      hide Delivery.ResolveF, Delivery.DeliverF, Ok, Valid, Abs, ObjOk, Load;
      InObjs(o);
      ghost var s := Abs();
      if o.flags.done || o.flags.failed {
        Delivery.ResolveStops(w, s, o.handle, data, sig);
        return;
      }
      Delivery.ResolveUnfolds(w, s, o.handle, data, sig);
      var settled, v, kind := Run(o, data, sig, w);
      if settled {
        ServeAll(o, v, Signal.Settle(kind), w);
      }
    }

    /** The delivery loop before slot `i`: what is left to do leads to `total`. */
    ghost predicate Serving(w: nat -> nat, o: Promisor, i: nat, v: Value, sig: Signal, total: State)
      reads this, objs, o
    {
      && Valid() && In(o) && o in pinned && holed == {} && i <= |o.handlers|
      && (forall j | 0 <= j < |o.handlers| :: o.handlers[j] == null <==> j < i)
      && Delivery.CanDeliver(w, Abs(), Handles(o.handlers[i..]), v)
      && Delivery.DeliverF(w, Abs(), Handles(o.handlers[i..]), v, sig) == total
    }

    /** The loop over the handlers of a promise that has just settled, and the release of its array. */
    method ServeAll(o: Promisor, v: Value, sig: Signal, ghost w: nat -> nat)
      requires Valid() && In(o) && o in pinned && holed == {}
               && (forall j | 0 <= j < |o.handlers| :: o.handlers[j] != null)
      requires Delivery.CanDeliver(w, Abs(), Handles(o.handlers), v)
      modifies this, repr
      ensures Valid() && old(objs) <= objs && old(repr) <= repr && fresh(repr - old(repr))
      ensures pinned == old(pinned) - {o} && holed == {}
      ensures Abs() == Delivery.DeliverF(w, old(Abs()), Handles(old(o.handlers)), v, sig)
      decreases Load(w, Abs().recs) + SlotCost(Handles(o.handlers), w), 3
    {
      hide Delivery.DeliverF, Ok, Valid, Abs, ObjOk, View, Load, SlotCost;
      ghost var total := Delivery.DeliverF(w, Abs(), Handles(o.handlers), v, sig);
      ghost var bound := Load(w, Abs().recs) + SlotCost(Handles(o.handlers), w);
      assert o.handlers[0..] == o.handlers;
      var i := 0;
      InObjs(o);
      assert pinned[o := o.handlers] == pinned;
      while i < |o.handlers|
        invariant i <= |o.handlers| && GrownBut(o) && Serving(w, o, i, v, sig, total)
        invariant Load(w, Abs().recs) + SlotCost(Handles(o.handlers[i..]), w) <= bound
      {
        Serve(o, i, v, sig, w, total);
        i := i + 1;
      }
      ServingDone(w, o, v, sig, total);
      Unpin(o);
    }

    lemma ServingDone(w: nat -> nat, o: Promisor, v: Value, sig: Signal, total: State)
      requires Serving(w, o, |o.handlers|, v, sig, total)
      ensures Valid() && In(o) && holed == {} && o in pinned && Abs() == total
    {
      assert Handles(o.handlers[|o.handlers|..]) == [];
    }

    lemma ServingSlot(w: nat -> nat, o: Promisor, i: nat, v: Value, sig: Signal, total: State)
      requires Serving(w, o, i, v, sig, total) && i < |o.handlers|
      ensures var h, hs := o.handlers[i], Handles(o.handlers[i..]);
              h != null && In(h) && h.handle < |Abs().recs| && hs == [h.handle] + Handles(o.handlers[i + 1..])
              && Delivery.CanDeliver(w, Abs(), hs, v) && Delivery.DeliverF(w, Abs(), hs, v, sig) == total
      ensures Valid() && In(o) && holed == {} && o in pinned && Ok(w, Abs()) && !v.Prom?
    {
      InObjs(o);
      assert o.handlers[i..][1..] == o.handlers[i + 1..];
    }

    /** One turn of the delivery loop. */
    method Serve(o: Promisor, i: nat, v: Value, sig: Signal, ghost w: nat -> nat, ghost total: State)
      requires Serving(w, o, i, v, sig, total) && i < |o.handlers|
      modifies this, repr
      ensures Serving(w, o, i + 1, v, sig, total) && GrownBut(o) && |o.handlers| == |old(o.handlers)|
      ensures Load(w, Abs().recs) + SlotCost(Handles(o.handlers[i + 1..]), w)
           <= old(Load(w, Abs().recs) + SlotCost(Handles(o.handlers[i..]), w))
      decreases Load(w, Abs().recs) + SlotCost(Handles(o.handlers[i..]), w), 2
    {
      hide Delivery.DeliverF, Delivery.DeliverOne, Ok, Valid, Abs, ObjOk, Load, SlotCost, Handles;
      ghost var hs := Handles(o.handlers[i..]);
      ServingSlot(w, o, i, v, sig, total);
      Delivery.DeliverUnfolds(w, Abs(), hs, v, sig);
      InObjs(o);
      DeliverTo(o.handlers[i], v, sig, w);
      InObjs(o);
      assert o.handlers == old(o.handlers);
      assert hs[1..] == Handles(o.handlers[i + 1..]);
      assert o.handlers[i := null][i + 1..] == o.handlers[i + 1..];
      Punch(o, i);
    }

    /** The result goes to one handler, or to a clone of a handler that is a prototype. */
    method DeliverTo(h: Promisor, v: Value, sig: Signal, ghost w: nat -> nat)
      requires Valid() && In(h) && holed == {} && Ok(w, Abs()) && !v.Prom?
      modifies this, repr
      ensures Valid() && Grown() && Ok(w, old(Abs())) && h.handle < |old(Abs()).recs|
      ensures Abs() == Delivery.DeliverOne(w, old(Abs()), h.handle, v, sig)
      decreases Load(w, Abs().recs) + w(h.handle), 1
    {
      hide Delivery.ResolveF, Delivery.DeliverOne, Cloning.CloneF, Ok, Valid, Abs, ObjOk, Load;
      ghost var s := Abs();
      InObjs(h);
      Delivery.OneUnfolds(w, s, h.handle, v, sig);
      if h.flags.proto {
        var c := Clone(h, w);
        Ref(h, -1);
        InObjs(c);
        Resolve(c, v, sig, w);
        Ref(c, -1);
      } else {
        Resolve(h, v, sig, w);
        Ref(h, -1);
      }
    }

    /** A served slot is set to NULL. */
    method Punch(o: Promisor, i: nat)
      requires Valid() && In(o) && o in pinned && o !in holed && i < |o.handlers|
      modifies o, this`pinned
      ensures Valid() && Abs() == old(Abs()) && o.handlers == old(o.handlers)[i := null]
      ensures pinned == old(pinned)[o := o.handlers]
    {
      hide Valid, Abs;
      InObjs(o);
      o.handlers := o.handlers[i := null];
      pinned := pinned[o := o.handlers];
      Pinned(o);
      assert Abs().recs == old(Abs()).recs;
    }

    /** The emptied array is freed. */
    method Unpin(o: Promisor)
      requires Valid() && In(o) && o in pinned && o !in holed
      modifies o, this`pinned
      ensures Valid() && Abs() == old(Abs()) && o.handlers == [] && pinned == old(pinned) - {o}
    {
      hide Valid, Abs;
      InObjs(o);
      o.handlers := [];
      o.taken := 0;
      pinned := pinned - {o};
      Pinned(o);
      assert Abs().recs == old(Abs()).recs;
    }
  }

  /** The copying loop: every write lands inside the new array, and fills it exactly. */
  method Squeeze(hs: seq<Promisor?>, n: nat) returns (out: seq<Promisor?>)
    requires n == |Packed(hs)|
    ensures out == Packed(hs)
  {
    var packed := new Promisor?[n](_ => null);
    var j := 0;
    for i := 0 to |hs|
      invariant j == |Packed(hs[..i])| <= n && packed[..j] == Packed(hs[..i])
    {
      PackedConcat(hs[..i], hs[i..]);
      PackedConcat(hs[..i], [hs[i]]);
      assert hs == hs[..i] + hs[i..] && hs[..i + 1] == hs[..i] + [hs[i]] && hs[i..] == [hs[i]] + hs[i + 1..];
      if hs[i] != null {
        packed[j] := hs[i];
        j := j + 1;
      }
    }
    assert hs[..|hs|] == hs;
    out := packed[..];
  }

  lemma Prefix(a: seq<Promisor>, b: seq<Promisor>, c: seq<Promisor>)
    requires a <= b <= c
    ensures a <= c
  {
  }

  /** The pointers that are left, in order. */
  function Packed(hs: seq<Promisor?>): seq<Promisor?> {
    if hs == [] then [] else (if hs[0] == null then [] else [hs[0]]) + Packed(hs[1..])
  }

  lemma {:induction false} PackedConcat(a: seq<Promisor?>, b: seq<Promisor?>)
    ensures Packed(a + b) == Packed(a) + Packed(b)
  {
    if a == [] {
      assert a + b == b;
    } else {
      assert (a + b)[1..] == a[1..] + b;
      PackedConcat(a[1..], b);
    }
  }

  lemma {:induction false} PackedFacts(hs: seq<Promisor?>)
    ensures |Packed(hs)| <= |hs| && Handles(Packed(hs)) == Handles(hs)
    ensures forall j | 0 <= j < |Packed(hs)| :: Packed(hs)[j] != null && Packed(hs)[j] in hs
  {
    if hs != [] {
      PackedFacts(hs[1..]);
      if hs[0] == null {
        assert [] + Packed(hs[1..]) == Packed(hs[1..]);
      } else {
        assert Packed(hs)[1..] == Packed(hs[1..]);
      }
    }
  }

  lemma {:induction false} PackedAll(hs: seq<Promisor?>)
    ensures |Packed(hs)| == |hs| ==> Packed(hs) == hs
  {
    if hs != [] {
      PackedFacts(hs[1..]);
      PackedAll(hs[1..]);
    }
  }

  lemma {:induction false} Unholed(hs: seq<Promisor?>)
    requires forall j | 0 <= j < |hs| :: hs[j] != null
    ensures |Handles(hs)| == |hs| && Packed(hs) == hs
    ensures forall j | 0 <= j < |hs| :: Handles(hs)[j] == hs[j].handle
  {
    if hs != [] { Unholed(hs[1..]); }
  }

  lemma HoleHandles(hs: seq<Promisor?>, i: nat)
    requires i < |hs| && hs[i] != null
    ensures var k := |Handles(hs[..i])|;
            k < |Handles(hs)| && Handles(hs)[k] == hs[i].handle
            && Handles(hs[i := null]) == Handles(hs)[..k] + Handles(hs)[k + 1..]
  {
    assert hs == hs[..i] + ([hs[i]] + hs[i + 1..]);
    assert hs[i := null] == hs[..i] + ([null] + hs[i + 1..]);
    HandlesConcat(hs[..i], [hs[i]] + hs[i + 1..]);
    HandlesConcat(hs[..i], [null] + hs[i + 1..]);
    HandlesConcat([hs[i]], hs[i + 1..]);
    HandlesConcat([null], hs[i + 1..]);
    assert Handles([hs[i]]) == [hs[i].handle];
    assert Handles([null]) == [];
  }

  lemma EnteredSuspends(recs: seq<Rec>, p: nat, q: nat, gen: Option<nat>)
    requires p < |recs| && q < |recs|
    ensures Suspend(recs[p := recs[p].(gen := gen)], p, q, gen) == Suspend(recs, p, q, gen)
  {
  }
}
