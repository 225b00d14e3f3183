/** The functions that programs call on promise objects, each a step of the model in Operations. */
module Api {
  import opened Values
  import opened Engine
  import opened Promisors
  import opened Operations
  import Cloning
  import Delivery
  import Runs
  import Graph

  /** Between two calls: no loop is running, and the state is good. */
  ghost predicate Ready(e: World)
    reads e, e.objs
  {
    e.Valid() && e.holed == {} && e.pinned == map[] && Good(e.Abs())
  }

  /** What every call does: it takes the represented state one step further. */
  twostate predicate Steps(e: World, op: Op)
    requires old(Ready(e)) && old(Legal(e.Abs(), op))
    reads e, e.objs
  {
    Ready(e) && e.Grown() && e.Abs() == Step(old(e.Abs()), op)
  }

  /** ion_promisor_promise_new, ion_promisor_deferred_new and the constructor of ION\Sequence. */
  method Create(e: World, done: Callback, fail: Callback, canceler: Callback, flags: Flags) returns (o: Promisor)
    requires Ready(e) && Legal(e.Abs(), New(done, fail, canceler, flags))
    modifies e`objs, e`repr
    ensures Steps(e, New(done, fail, canceler, flags)) && fresh(o) && e.In(o) && o.handle == |old(e.objs)|
  {
    hide e.Valid, e.Abs, e.ObjOk, Ready;
    Begin(e);
    Runs.StepGood(e.Abs(), New(done, fail, canceler, flags));
    o := e.Alloc(flags, done, fail, canceler);
    End(e);
  }

  lemma Begin(e: World)
    requires Ready(e)
    ensures e.Valid() && e.holed == {} && e.pinned == map[] && Good(e.Abs()) && Ok(Weights(e.Abs()), e.Abs())
    ensures |e.objs| == |e.Abs().recs|
  {
  }

  lemma End(e: World)
    requires e.Valid() && e.holed == {} && e.pinned == map[] && Good(e.Abs())
    ensures Ready(e)
  {
  }

  /** ion_promisor_done_ex and ion_promisor_fail_ex: a prototype stays, and its resolved clone is returned. */
  method FinishEx(e: World, o: Promisor, v: Value, sig: Signal, ghost w: nat -> nat) returns (c: Promisor?)
    requires e.Valid() && e.holed == {} && e.In(o) && Ok(w, e.Abs()) && !v.Prom?
    modifies e, e.repr
    ensures e.Valid() && e.Grown() && Ok(w, old(e.Abs())) && o.handle < |old(e.Abs()).recs|
    ensures e.Abs() == FinishF(w, old(e.Abs()), o.handle, v, sig)
    ensures c != null <==> Cloning.IsProto(old(e.Abs()), o.handle)
    ensures c != null ==> e.In(c) && c.handle == |old(e.objs)|
  {
    hide e.Valid, e.Abs, e.ObjOk, Ok, Cloning.CloneF, Delivery.ResolveF;
    e.InObjs(o);
    c := null;
    if o.flags.proto {
      c := e.Clone(o, w);
      e.InObjs(c);
      e.Resolve(c, v, sig, w);
    } else {
      e.Resolve(o, v, sig, w);
    }
  }

  /** ion_promisor_done and ion_promisor_fail. */
  method Finish(e: World, o: Promisor, v: Value, kind: Kind)
    requires Ready(e) && e.In(o) && !v.Prom? && Legal(e.Abs(), Op.Finish(o.handle, kind, v))
    modifies e, e.repr
    ensures Steps(e, Op.Finish(o.handle, kind, v))
  {
    hide e.Valid, e.Abs, e.ObjOk, Ready, FinishF, Ok, Delivery.ResolveF;
    Begin(e);
    Runs.StepGood(e.Abs(), Op.Finish(o.handle, kind, v));
    var c := FinishEx(e, o, v, Settle(kind), Weights(e.Abs()));
    if c != null {
      e.InRepr(c);
      e.Ref(c, -1);
    }
    End(e);
  }

  /** ION\ResolvablePromise::done and fail: guarded by the state of the promise. */
  method UserFinish(e: World, o: Promisor, v: Value, kind: Kind) returns (ok: bool)
    requires Ready(e) && e.In(o) && Legal(e.Abs(), Op.UserFinish(o.handle, kind, v))
    modifies e, e.repr
    ensures Steps(e, Op.UserFinish(o.handle, kind, v)) && ok == UserMayFinish(old(View(o)))
  {
    hide e.Valid, e.Abs, e.ObjOk, Ready, FinishF, SettleF, Ok, Good;
    Begin(e);
    e.InObjs(o);
    if o.flags.done || o.flags.failed { return false; }
    if o.flags.isInternal { return false; }
    if o.await != null || o.generator.Some? { return false; }
    Finish(e, o, v, kind);
    ok := true;
  }

  /** ION\Sequence::__invoke with one argument. */
  method Invoke(e: World, o: Promisor, v: Value) returns (c: Promisor)
    requires Ready(e) && e.In(o) && Legal(e.Abs(), Op.Invoke(o.handle, v))
    modifies e, e.repr
    ensures Steps(e, Op.Invoke(o.handle, v)) && e.In(c) && c.handle == |old(e.objs)|
  {
    hide e.Valid, e.Abs, e.ObjOk, Ready, FinishF, Ok, Good;
    Begin(e);
    Runs.StepGood(e.Abs(), Op.Invoke(o.handle, v));
    c := FinishEx(e, o, v, Settle(Done), Weights(e.Abs()));
    End(e);
  }

  /** ION\Deferred::cancel and ion_promisor_cancel. */
  method CancelWith(e: World, o: Promisor, error: int) returns (ok: bool)
    requires Ready(e) && e.In(o) && Legal(e.Abs(), Op.CancelWith(o.handle, error))
    modifies e, e.repr
    ensures Steps(e, Op.CancelWith(o.handle, error)) && ok == !Finished(old(View(o)))
  {
    hide e.Valid, e.Abs, Ready, Ok, Good, Delivery.ResolveF;
    Begin(e);
    e.InObjs(o);
    if o.flags.done || o.flags.failed { return false; }
    Runs.StepGood(e.Abs(), Op.CancelWith(o.handle, error));
    CancelingOk(Weights(e.Abs()), e.Abs(), o.handle);
    ghost var w := Weights(e.Abs());
    label L:
    o.flags := o.flags.(canceled := true);
    e.Changed@L(o);
    e.Resolve(o, Error(error), Cancel, w);
    End(e);
    ok := true;
  }

  /** ion_promisor_push_callbacks: a settled promise answers at once, any other takes a new handler. */
  method Then(e: World, o: Promisor, done: Callback, fail: Callback) returns (h: Promisor)
    requires Ready(e) && e.In(o) && Legal(e.Abs(), Op.Then(o.handle, done, fail))
    modifies e, e.repr
    ensures Steps(e, Op.Then(o.handle, done, fail)) && e.In(h) && h.handle == |old(e.objs)|
  {
    hide e.Valid, e.Abs, e.ObjOk, Ready, Ok, Good, Delivery.ResolveF, RecOk;
    Begin(e);
    e.InObjs(o);
    Runs.StepGood(e.Abs(), Op.Then(o.handle, done, fail));
    if o.flags.done || o.flags.failed {
      h := Answer(e, o, done, fail, Weights(e.Abs()));
    } else {
      h := Attach(e, o, done, fail);
    }
    End(e);
  }

  /** A handler of a settled promise is resolved at once. */
  method Answer(e: World, o: Promisor, done: Callback, fail: Callback, ghost w: nat -> nat) returns (h: Promisor)
    requires e.Valid() && e.In(o) && Ok(w, e.Abs()) && (o.flags.done || o.flags.failed) && e.holed == {}
    modifies e, e.repr
    ensures e.Valid() && e.Grown() && e.In(h) && h.handle == |old(e.objs)|
    ensures Ok(w, old(e.Abs())) && o.handle < |old(e.Abs()).recs|
    ensures e.Abs() == ThenF(w, old(e.Abs()), o.handle, done, fail)
  {
    hide e.Valid, e.Abs, e.ObjOk, Ok, Delivery.ResolveF, RecOk;
    e.InObjs(o);
    Answers(w, e.Abs(), o.handle, done, fail);
    h := e.Alloc(PlainFlags(false), done, fail, Callback.Unset);
    e.InObjs(h);
    e.Resolve(h, o.result, Settle(if o.flags.done then Done else Failed), w);
  }

  /** A handler of an unsettled promise takes a slot, and is a prototype with it. */
  method Attach(e: World, o: Promisor, done: Callback, fail: Callback) returns (h: Promisor)
    requires e.Valid() && e.In(o) && o !in e.pinned
    modifies e, e.repr
    ensures e.Valid() && e.Grown() && e.In(h) && h.handle == |old(e.objs)| && o.handle < |old(e.Abs()).recs|
    ensures e.Abs() == Appended(Created(old(e.Abs()),
              Pending(done, fail, Callback.Unset, PlainFlags(Cloning.IsProto(old(e.Abs()), o.handle)))),
              o.handle, |old(e.Abs()).recs|)
  {
    hide e.Valid, e.Abs, e.ObjOk;
    e.InObjs(o);
    var proto := o.flags.proto;
    ghost var s := e.Abs();
    assert proto == Cloning.IsProto(s, o.handle);
    hide View;
    h := e.Alloc(PlainFlags(false), done, fail, Callback.Unset);
    e.InObjs(h);
    e.Push(o, h);
    e.Ref(h, 1);
    SetProto(e, h, proto);
    Nested(s, o.handle, Pending(done, fail, Callback.Unset, PlainFlags(false)), proto);
  }

  method SetProto(e: World, h: Promisor, proto: bool)
    requires e.Valid() && e.In(h)
    modifies h
    ensures e.Valid() && h.handle < |old(e.Abs()).recs|
    ensures e.Abs() == old(e.Abs()).(recs := old(e.Abs()).recs[h.handle :=
                         old(e.Abs()).recs[h.handle].(flags := old(e.Abs()).recs[h.handle].flags.(proto := proto))])
  {
    hide e.Valid, e.Abs;
    e.InObjs(h);
    h.flags := h.flags.(proto := proto);
    e.Changed(h);
  }

  /** A settled promise is no prototype, and its result can be delivered to a new handler. */
  lemma Answers(w: nat -> nat, s: State, p: nat, done: Callback, fail: Callback)
    requires Ok(w, s) && p < |s.recs| && Finished(s.recs[p])
    ensures !s.recs[p].flags.proto
    ensures Delivery.CanResolve(w, Created(s, Pending(done, fail, Callback.Unset, PlainFlags(false))), |s.recs|,
            s.recs[p].result)
  {
    assert RecOk(w, s, p);
    CreatedOk(w, s, Pending(done, fail, Callback.Unset, PlainFlags(false)));
  }

  /** The nested flag may be set before or after the new handler is attached. */
  lemma Nested(s: State, p: nat, r: Rec, proto: bool)
    requires p < |s.recs|
    ensures var late, h := Appended(Created(s, r), p, |s.recs|).recs, |s.recs|;
            late[h := late[h].(flags := late[h].flags.(proto := proto))]
            == Appended(Created(s, r.(flags := r.flags.(proto := proto))), p, h).recs
  {
  }

  /** ion_promisor_append, as ION\Promise::then calls it: the promise itself is refused. */
  method Append(e: World, o: Promisor, h: Promisor) returns (ok: bool)
    requires Ready(e) && e.In(o) && e.In(h) && Legal(e.Abs(), Op.Append(o.handle, h.handle))
    modifies e, e.repr
    ensures Steps(e, Op.Append(o.handle, h.handle)) && ok == (o != h)
  {
    hide e.Valid, e.Abs, e.ObjOk, Ready, Ok, Good;
    Begin(e);
    e.InObjs(o);
    e.InObjs(h);
    if o == h { return false; }
    ghost var s := e.Abs();
    Runs.StepGood(s, Op.Append(o.handle, h.handle));
    e.Push(o, h);
    e.Ref(h, 1);
    e.Ref(h, 1);
    assert e.Abs() == Step(s, Op.Append(o.handle, h.handle));
    End(e);
    ok := true;
  }

  // ---- Removing handlers ----------------------------------------------------------------------

  /** The records when the loop has looked at the first `i` slots of `p`. */
  function Removed(recs: seq<Rec>, p: nat, i: nat, drop: nat -> bool): seq<Rec>
    requires SlotsInRange(recs, p) && i <= |recs[p].handlers|
  {
    var hs, out := recs[p].handlers, ReleaseSlots(recs, recs[p].handlers[..i], drop);
    out[p := out[p].(handlers := Filter(hs[..i], drop) + hs[i..])]
  }

  lemma {:induction false} FilterSnoc(hs: seq<nat>, x: nat, drop: nat -> bool)
    ensures Filter(hs + [x], drop) == Filter(hs, drop) + if drop(x) then [] else [x]
  {
    if hs != [] {
      assert (hs + [x])[1..] == hs[1..] + [x];
      FilterSnoc(hs[1..], x, drop);
    }
  }

  lemma {:induction false} ReleaseSnoc(recs: seq<Rec>, hs: seq<nat>, x: nat, drop: nat -> bool)
    requires x < |recs| && forall j | 0 <= j < |hs| :: hs[j] < |recs|
    ensures ReleaseSlots(recs, hs + [x], drop)
         == var out := ReleaseSlots(recs, hs, drop); if drop(x) then AddRef(out, x, -1) else out
    decreases |hs|
  {
    if hs != [] {
      assert (hs + [x])[1..] == hs[1..] + [x];
      ReleaseSnoc(if drop(hs[0]) then AddRef(recs, hs[0], -1) else recs, hs[1..], x, drop);
    }
  }

  lemma {:induction false} ReleasedOnly(recs: seq<Rec>, hs: seq<nat>, drop: nat -> bool, i: nat)
    requires i < |recs| && forall j | 0 <= j < |hs| :: hs[j] < |recs|
    ensures ReleaseSlots(recs, hs, drop)[i] == recs[i].(refs := ReleaseSlots(recs, hs, drop)[i].refs)
    decreases |hs|
  {
    if hs != [] { ReleasedOnly(if drop(hs[0]) then AddRef(recs, hs[0], -1) else recs, hs[1..], drop, i); }
  }

  /** One turn of the loop on records: the slots looked at are `hs[..i]`, the kept ones `kept`. */
  lemma RemovedStep(recs: seq<Rec>, p: nat, i: nat, drop: nat -> bool)
    requires SlotsInRange(recs, p) && i < |recs[p].handlers|
    ensures var x, k := recs[p].handlers[i], |Filter(recs[p].handlers[..i], drop)|;
            && k < |Removed(recs, p, i, drop)[p].handlers|
            && Removed(recs, p, i + 1, drop) ==
               if drop(x) then Cloning.DropSlot(AddRef(Removed(recs, p, i, drop), x, -1), p, k)
                 else Removed(recs, p, i, drop)
  {
    var hs := recs[p].handlers;
    var kept := Filter(hs[..i], drop);
    hide Filter, ReleaseSlots;
    assert hs[..i + 1] == hs[..i] + [hs[i]] && hs[i..] == [hs[i]] + hs[i + 1..];
    FilterSnoc(hs[..i], hs[i], drop);
    ReleaseSnoc(recs, hs[..i], hs[i], drop);
    assert kept + hs[i..] == kept + [hs[i]] + hs[i + 1..];
    assert kept + [] == kept;
    if drop(hs[i]) {
      SlotOut(ReleaseSlots(recs, hs[..i], drop), p, hs[i], kept, hs[i + 1..]);
    }
  }

  /** Releasing the handler and dropping its slot, in either order. */
  lemma SlotOut(recs: seq<Rec>, p: nat, x: nat, kept: seq<nat>, rest: seq<nat>)
    requires p < |recs| && x < |recs|
    ensures var r0, r1 := recs[p := recs[p].(handlers := kept + [x] + rest)], AddRef(recs, x, -1);
            Cloning.DropSlot(AddRef(r0, x, -1), p, |kept|) == r1[p := r1[p].(handlers := kept + rest)]
  {
    var hs := kept + [x] + rest;
    assert hs[..|kept|] == kept && hs[|kept| + 1..] == rest;
    var r0, r1 := recs[p := recs[p].(handlers := hs)], AddRef(recs, x, -1);
    var a, b := Cloning.DropSlot(AddRef(r0, x, -1), p, |kept|), r1[p := r1[p].(handlers := kept + rest)];
    assert a[p] == b[p];
    assert a == b;
  }

  /** The loop before slot `i` of `t`, started in `s`. */
  ghost predicate Removing(e: World, t: Promisor, i: nat, removed: nat, drop: nat -> bool, s: State)
    reads e, e.objs, t
  {
    && e.Valid() && e.In(t) && e.holed == {t} && i <= |t.handlers|
    && SlotsInRange(s.recs, t.handle) && |s.recs[t.handle].handlers| == |t.handlers|
    && (forall j | i <= j < |t.handlers| ::
          t.handlers[j] != null && t.handlers[j].handle == s.recs[t.handle].handlers[j])
    && Handles(t.handlers[..i]) == Filter(s.recs[t.handle].handlers[..i], drop)
    && removed + |Handles(t.handlers[..i])| == i
    && e.Abs() == s.(recs := Removed(s.recs, t.handle, i, drop))
  }

  /** A slot that is dropped: its reference goes, and its pointer becomes NULL. */
  method Discard(e: World, t: Promisor, i: nat, ghost removed: nat, ghost drop: nat -> bool, ghost s: State)
    requires Removing(e, t, i, removed, drop, s) && i < |t.handlers| && drop(t.handlers[i].handle)
    modifies e`pinned, t, t.handlers[i]
    ensures Removing(e, t, i + 1, removed + 1, drop, s) && e.pinned == old(e.pinned)[t := t.handlers]
    ensures |t.handlers| == |old(t.handlers)|
  {
    hide e.Valid, e.Abs, e.ObjOk, Removed, Handles, Filter, ReleaseSlots, Cloning.DropSlot, AddRef;
    ghost var hs, was := s.recs[t.handle].handlers, t.handlers;
    e.SlotHandles(t, i);
    RemovedStep(s.recs, t.handle, i, drop);
    FilterSnoc(hs[..i], hs[i], drop);
    assert hs[..i + 1] == hs[..i] + [hs[i]] && Filter(hs[..i], drop) + [] == Filter(hs[..i], drop);
    e.Ref(t.handlers[i], -1);
    e.NullSlot(t, i);
    assert t.handlers[..i + 1] == was[i := null][..i + 1];
  }

  /** A slot that stays. */
  lemma Keep(e: World, t: Promisor, i: nat, removed: nat, drop: nat -> bool, s: State)
    requires Removing(e, t, i, removed, drop, s) && i < |t.handlers| && !drop(t.handlers[i].handle)
    ensures Removing(e, t, i + 1, removed, drop, s)
  {
    hide e.Valid, e.Abs, e.ObjOk, Removed;
    e.SlotHandles(t, i);
    RemovedStep(s.recs, t.handle, i, drop);
    assert s.recs[t.handle].handlers[..i + 1] == s.recs[t.handle].handlers[..i] + [s.recs[t.handle].handlers[i]];
    FilterSnoc(s.recs[t.handle].handlers[..i], s.recs[t.handle].handlers[i], drop);
  }

  lemma RemovalStarts(e: World, t: Promisor, drop: nat -> bool, s: State)
    requires e.Valid() && e.In(t) && e.holed == {t} && s == e.Abs() && SlotsInRange(s.recs, t.handle)
    requires forall j | 0 <= j < |t.handlers| :: t.handlers[j] != null
    ensures Removing(e, t, 0, 0, drop, s)
  {
    e.InObjs(t);
    assert t.handlers[0..] == t.handlers;
    Unholed(t.handlers);
    assert s.recs[t.handle].handlers[0..] == s.recs[t.handle].handlers;
    assert [] + s.recs[t.handle].handlers == s.recs[t.handle].handlers;
  }

  lemma RemovalEnds(e: World, t: Promisor, removed: nat, drop: nat -> bool, s: State)
    requires Removing(e, t, |t.handlers|, removed, drop, s)
    ensures removed == |t.handlers| - |Packed(t.handlers)| && e.Valid() && e.In(t) && e.holed == {t} && t in e.repr
    ensures Cloning.TryClean(e.Abs(), t.handle) == RemoveWhere(s, t.handle, drop)
  {
    var hs := s.recs[t.handle].handlers;
    assert t.handlers[..|t.handlers|] == t.handlers && hs[..|hs|] == hs
      && Filter(hs, drop) + hs[|hs|..] == Filter(hs, drop);
    e.InRepr(t);
    PackedFacts(t.handlers);
    Unholed(Packed(t.handlers));
    ReleasedOnly(s.recs, hs, drop, t.handle);
  }

  /** The slots of a container between two calls are all filled, and its records are in range. */
  lemma Container(e: World, t: Promisor)
    requires Ready(e) && e.In(t)
    ensures SlotsInRange(e.Abs().recs, t.handle) && forall j | 0 <= j < |t.handlers| :: t.handlers[j] != null
  {
    e.InObjs(t);
    assert RecOk(Weights(e.Abs()), e.Abs(), t.handle);
  }

  lemma RemovalSlot(e: World, t: Promisor, i: nat, removed: nat, drop: nat -> bool, s: State)
    requires Removing(e, t, i, removed, drop, s) && i < |t.handlers|
    ensures var x := t.handlers[i];
            x != null && e.In(x) && x in e.repr && t in e.repr && x.handle < |s.recs| && x.name == s.recs[x.handle].name
  {
    hide e.Valid, e.Abs, e.ObjOk, Filter, ReleaseSlots, Handles;
    e.SlotHandles(t, i);
    var x := t.handlers[i];
    ReleasedOnly(s.recs, s.recs[t.handle].handlers[..i], drop, x.handle);
    e.InRepr(t);
  }

  /** ion_promisor_remove. */
  method Remove(e: World, t: Promisor, h: Promisor)
    requires Ready(e) && e.In(t) && e.In(h) && Legal(e.Abs(), Forget(t.handle, h.handle))
    modifies e, e.repr
    ensures Steps(e, Forget(t.handle, h.handle))
  {
    hide e.Valid, e.Abs, e.ObjOk, Ready, Ok, Good, Removing, RemoveWhere;
    Begin(e);
    Container(e, t);
    ghost var s, drop := e.Abs(), IsHandler(h.handle);
    Runs.StepGood(s, Forget(t.handle, h.handle));
    e.Hold(t);
    var removed, i := 0, 0;
    RemovalStarts(e, t, drop, s);
    while i < |t.handlers|
      invariant i <= |t.handlers| && Removing(e, t, i, removed, drop, s) && e.pinned == map[t := t.handlers]
      invariant e.objs == old(e.objs) && e.repr == old(e.repr)
    {
      RemovalSlot(e, t, i, removed, drop, s);
      if t.handlers[i] == h {
        Discard(e, t, i, removed, drop, s);
        removed := removed + 1;
      } else {
        Keep(e, t, i, removed, drop, s);
      }
      i := i + 1;
    }
    RemovalEnds(e, t, removed, drop, s);
    e.Cleanup(t, removed);
    e.TryClean(t);
    End(e);
  }

  /** ion_promisor_remove_named. */
  method RemoveNamed(e: World, t: Promisor, name: string)
    requires Ready(e) && e.In(t) && Legal(e.Abs(), ForgetNamed(t.handle, name))
    modifies e, e.repr
    ensures Steps(e, ForgetNamed(t.handle, name))
  {
    hide e.Valid, e.Abs, e.ObjOk, Ready, Ok, Good, Removing, RemoveWhere;
    Begin(e);
    Container(e, t);
    ghost var s, drop := e.Abs(), HasName(e.Abs().recs, name);
    Runs.StepGood(s, ForgetNamed(t.handle, name));
    e.Hold(t);
    var removed, i := 0, 0;
    RemovalStarts(e, t, drop, s);
    while i < |t.handlers|
      invariant i <= |t.handlers| && Removing(e, t, i, removed, drop, s) && e.pinned == map[t := t.handlers]
      invariant e.objs == old(e.objs) && e.repr == old(e.repr)
    {
      RemovalSlot(e, t, i, removed, drop, s);
      if t.handlers[i].name == Some(name) {
        Discard(e, t, i, removed, drop, s);
        removed := removed + 1;
      } else {
        Keep(e, t, i, removed, drop, s);
      }
      i := i + 1;
    }
    RemovalEnds(e, t, removed, drop, s);
    e.Cleanup(t, removed);
    e.TryClean(t);
    End(e);
  }

  /** ION\Promise::setName. */
  method SetName(e: World, o: Promisor, name: string)
    requires Ready(e) && e.In(o)
    modifies e.repr
    ensures Steps(e, Op.SetName(o.handle, name))
  {
    hide e.Valid, e.Abs, Ready, Ok, Good;
    Begin(e);
    e.InObjs(o);
    Runs.StepGood(e.Abs(), Op.SetName(o.handle, name));
    o.name := Some(name);
    e.Changed(o);
    End(e);
  }

  /** A reference of the program's own is given back.  Freeing a promise that nobody refers to any more is
      not part of the model. */
  method Release(e: World, o: Promisor)
    requires Ready(e) && e.In(o) && Legal(e.Abs(), Op.Release(o.handle))
    modifies e.repr
    ensures Steps(e, Op.Release(o.handle))
  {
    hide e.Valid, e.Abs, e.ObjOk, Ready, Ok, Good;
    Begin(e);
    e.InObjs(o);
    Runs.StepGood(e.Abs(), Op.Release(o.handle));
    e.Ref(o, -1);
    End(e);
  }

  lemma {:induction false} HandledBy(hs: seq<Promisor?>, h: nat)
    requires (forall j | 0 <= j < |hs| :: hs[j] != null) && h in Handles(hs)
    ensures exists j | 0 <= j < |hs| :: hs[j].handle == h
  {
    Unholed(hs);
  }

  /** A promise in progress waits. */
  lemma Waited(e: World, o: Promisor)
    requires Ready(e) && e.In(o) && o.flags.processing
    ensures o.await != null && e.In(o.await) && !Finished(View(o)) && !Finished(View(o.await)) && o in o.await.handlers
  {
    assert RecOk(Weights(e.Abs()), e.Abs(), o.handle) && !Graph.Stuck(e.Abs(), o.handle);
    e.InObjs(o);
    var q := o.await;
    e.InObjs(q);
    assert q.handlers[0..] == q.handlers;
    HandledBy(q.handlers, o.handle);
  }

  lemma OneKind(e: World, o: Promisor)
    requires Ready(e) && e.In(o)
    ensures !(o.flags.done && o.flags.failed)
  {
    assert RecOk(Weights(e.Abs()), e.Abs(), o.handle);
    e.InObjs(o);
  }

  datatype Status = DONE | CANCELED | FAILED | IN_PROGRESS | PENDING

  /** ION\Promise::getState.  Between two calls IN_PROGRESS means: waiting for a live promise that
      lists this one as a handler. */
  method GetState(e: World, o: Promisor) returns (status: Status)
    requires Ready(e) && e.In(o)
    ensures status.DONE? <==> o.flags.done
    ensures status.FAILED? <==> o.flags.failed && !o.flags.canceled
    ensures status.PENDING? || status.IN_PROGRESS? <==> !o.flags.done && !o.flags.failed && !o.flags.canceled
    ensures status.IN_PROGRESS? ==> o.flags.processing
    ensures status.PENDING? ==> !o.flags.processing
    ensures status.IN_PROGRESS? ==>
              o.await != null && e.In(o.await) && !Finished(View(o.await)) && o in o.await.handlers
    ensures status.CANCELED? <==> o.flags.canceled && !o.flags.done
  {
    hide e.Valid, Ready, Ok, View;
    if o.flags.processing { Waited(e, o); }
    OneKind(e, o);
    if o.flags.done { return DONE; }
    if o.flags.canceled { return CANCELED; }
    if o.flags.failed { return FAILED; }
    if o.flags.processing { return IN_PROGRESS; }
    return PENDING;
  }
}
