/** Delivery over a tree of ordinary handlers is a pure function of the root's outcome. */
module Trees {
  import opened Values
  import opened Engine
  import opened Cloning
  import opened Delivery
  import opened Permanence
  import opened Activations

  /** A handler tree: each node with its promise, its callbacks and its handlers in order. */
  datatype Tree = Node(id: nat, done: Callback, fail: Callback, kids: seq<Tree>)

  /** The callback of a node whose parent settled with `kind`, unless it refuses the value. */
  function Chosen(t: Tree, kind: Kind, v: Value): Callback {
    var cb := if kind.Done? then t.done else t.fail;
    if Declines(cb, v) then Unset else cb
  }

  /** What a node makes of its parent's outcome: it passes it on, or turns it into a value or an error. */
  function Outcome(t: Tree, v: Value, kind: Kind): (Value, Kind) {
    var cb := Chosen(t, kind, v);
    if cb.Unset? then (v, kind)
    else
      match Reply(cb, v)
      case Returns(x) => (x, Done)
      case Raises(e) => (Error(e), Failed)
      case Fresh(_) => (Null, Done)
  }

  /** The calls made for a tree: the node first, then its subtrees from left to right. */
  function Trace(t: Tree, v: Value, kind: Kind): seq<Event>
    decreases t
  {
    (if Chosen(t, kind, v).Unset? then [] else [Called(t.id, Settle(kind), v, None)])
    + var o := Outcome(t, v, kind); TraceAll(t.kids, o.0, o.1)
  }

  function TraceAll(ts: seq<Tree>, v: Value, kind: Kind): seq<Event>
    decreases ts
  {
    if ts == [] then [] else Trace(ts[0], v, kind) + TraceAll(ts[1..], v, kind)
  }

  /** Every node of the tree is settled with its own outcome. */
  ghost predicate Evaluated(s: State, t: Tree, v: Value, kind: Kind)
    decreases t
  {
    var o := Outcome(t, v, kind);
    && SettledAs(s, t.id, o.0, o.1 == Done)
    && AllEvaluated(s, t.kids, o.0, o.1)
  }

  ghost predicate AllEvaluated(s: State, ts: seq<Tree>, v: Value, kind: Kind)
    decreases ts
  {
    ts != [] ==> Evaluated(s, ts[0], v, kind) && AllEvaluated(s, ts[1..], v, kind)
  }

  function Ids(t: Tree): set<nat>
    decreases t
  {
    {t.id} + AllIds(t.kids)
  }

  function AllIds(ts: seq<Tree>): set<nat>
    decreases ts
  {
    if ts == [] then {} else Ids(ts[0]) + AllIds(ts[1..])
  }

  function Roots(ts: seq<Tree>): seq<nat> {
    if ts == [] then [] else [ts[0].id] + Roots(ts[1..])
  }

  /** Given `v`, the callback neither returns a promise nor starts a coroutine.  It may return a
      generator that exists, if it is a function that the engine takes such a result from. */
  predicate AtOnce(cb: Callback, v: Value, n: nat) {
    !cb.Unset? ==>
      match Reply(cb, v)
      case Returns(x) => !x.Prom? && (x.Gen? ==> cb.Php? && !cb.generator && x.g < n)
      case Raises(_) => true
      case Fresh(_) => false
  }

  /** Every callback of the tree that runs answers at once to the value that it is given. */
  predicate PlainTree(t: Tree, v: Value, kind: Kind, n: nat)
    decreases t
  {
    AtOnce(Chosen(t, kind, v), v, n) && var o := Outcome(t, v, kind); PlainForest(t.kids, o.0, o.1, n)
  }

  predicate PlainForest(ts: seq<Tree>, v: Value, kind: Kind, n: nat)
    decreases ts
  {
    ts != [] ==> PlainTree(ts[0], v, kind, n) && PlainForest(ts[1..], v, kind, n)
  }

  /** The pending promises of `s` below `t.id` are exactly the tree `t`, without sharing. */
  ghost predicate Shape(s: State, t: Tree)
    decreases t
  {
    && t.id < |s.recs| && !s.recs[t.id].flags.proto && !Finished(s.recs[t.id])
    && s.recs[t.id].await.None? && s.recs[t.id].gen.None?
    && s.recs[t.id].done == t.done && s.recs[t.id].fail == t.fail
    && s.recs[t.id].handlers == Roots(t.kids)
    && t.id !in AllIds(t.kids) && AllShape(s, t.kids)
  }

  ghost predicate AllShape(s: State, ts: seq<Tree>)
    decreases ts
  {
    ts != [] ==> Shape(s, ts[0]) && Ids(ts[0]) !! AllIds(ts[1..]) && AllShape(s, ts[1..])
  }

  /** Only the records of `ids` changed, apart from reference counts. */
  ghost predicate Touches(s: State, s': State, ids: set<nat>) {
    && |s'.recs| == |s.recs| && s'.gens == s.gens
    && forall i | 0 <= i < |s.recs| && i !in ids :: s'.recs[i] == s.recs[i].(refs := s'.recs[i].refs)
  }

  lemma {:induction false} ShapeStays(s: State, s': State, t: Tree, ids: set<nat>)
    requires Touches(s, s', ids) && Shape(s, t) && ids !! Ids(t)
    ensures Shape(s', t)
    decreases t, 0
  {
    AllShapeStays(s, s', t.kids, ids);
  }

  lemma {:induction false} AllShapeStays(s: State, s': State, ts: seq<Tree>, ids: set<nat>)
    requires Touches(s, s', ids) && AllShape(s, ts) && ids !! AllIds(ts)
    ensures AllShape(s', ts)
    decreases ts, 1
  {
    if ts != [] {
      ShapeStays(s, s', ts[0], ids);
      AllShapeStays(s, s', ts[1..], ids);
    }
  }

  lemma {:induction false} EvaluatedStays(s: State, s': State, t: Tree, v: Value, kind: Kind)
    requires Kept(s, s') && Evaluated(s, t, v, kind)
    ensures Evaluated(s', t, v, kind)
    decreases t, 0
  {
    assert KeptAt(s, s', t.id);
    AllEvaluatedStays(s, s', t.kids, Outcome(t, v, kind).0, Outcome(t, v, kind).1);
  }

  lemma {:induction false} AllEvaluatedStays(s: State, s': State, ts: seq<Tree>, v: Value, kind: Kind)
    requires Kept(s, s') && AllEvaluated(s, ts, v, kind)
    ensures AllEvaluated(s', ts, v, kind)
    decreases ts, 1
  {
    if ts != [] {
      EvaluatedStays(s, s', ts[0], v, kind);
      AllEvaluatedStays(s, s', ts[1..], v, kind);
    }
  }

  /** A plain callback settles its promise at once, with the outcome of its node. */
  lemma PlainDrive(s: State, t: Tree, v: Value, kind: Kind)
    requires Shape(s, t) && CanDrive(s, t.id) && PlainResults(s.recs) && !v.Prom?
    requires AtOnce(Chosen(t, kind, v), v, |s.gens|)
    ensures var o := Outcome(t, v, kind);
            Drive(s, t.id, v, Settle(kind)) ==
            Settles(o.0, o.1, s.gens,
                    s.log + if Chosen(t, kind, v).Unset? then [] else [Called(t.id, Settle(kind), v, None)])
  {
    var cb := Chosen(t, kind, v);
    assert cb == Pick(s.recs[t.id], Settle(kind), v);
    if !cb.Unset? {
      var log := s.log + [Called(t.id, Settle(kind), v, None)];
      assert Call(cb, v) == Reply(cb, v);
      match Reply(cb, v)
      case Returns(x) =>
        assert Watch(s.recs, s.gens, log, None, x, Done, x.Gen? && Skips(cb)) == Settles(x, Done, s.gens, log);
      case Raises(e) =>
    } else {
      assert s.log + [] == s.log;
    }
  }

  lemma TouchesTrans(a: State, b: State, c: State, x: set<nat>, y: set<nat>)
    requires Touches(a, b, x) && Touches(b, c, y)
    ensures Touches(a, c, x + y)
  {
  }

  function OwnCall(t: Tree, v: Value, kind: Kind): seq<Event> {
    if Chosen(t, kind, v).Unset? then [] else [Called(t.id, Settle(kind), v, None)]
  }

  /** The root of a tree settles at once and its roots are delivered to. */
  lemma TreeClosed(w: nat -> nat, s: State, t: Tree, v: Value, kind: Kind) returns (s1: State)
    requires Ok(w, s) && Shape(s, t) && !v.Prom? && AtOnce(Chosen(t, kind, v), v, |s.gens|)
    ensures var o := Outcome(t, v, kind);
            && !o.0.Prom? && Touches(s, s1, {t.id}) && s1.log == s.log + OwnCall(t, v, kind)
            && SettledAs(s1, t.id, o.0, o.1 == Done)
            && CanDeliver(w, s1, Roots(t.kids), o.0)
            && ResolveF(w, s, t.id, v, Settle(kind)) == DeliverF(w, s1, Roots(t.kids), o.0, Settle(o.1))
  {
    OkDrives(w, s, t.id);
    PlainDrive(s, t, v, kind);
    var run := Drive(s, t.id, v, Settle(kind));
    SettleOk(w, s, t.id, run);
    s1 := Closed(s, t.id, run);
  }

  /** Resolving the root settles every node with the outcome of a pure function of its parent's, and
      makes exactly the calls of the depth-first trace. */
  lemma {:induction false} ResolveTree(w: nat -> nat, s: State, t: Tree, v: Value, kind: Kind)
    requires Ok(w, s) && Shape(s, t) && !v.Prom? && PlainTree(t, v, kind, |s.gens|)
    ensures var out := ResolveF(w, s, t.id, v, Settle(kind));
            && Evaluated(out, t, v, kind) && out.log == s.log + Trace(t, v, kind) && Touches(s, out, Ids(t))
    decreases t, 0
  {
    var s1 := TreeClosed(w, s, t, v, kind);
    var o := Outcome(t, v, kind);
    AllShapeStays(s, s1, t.kids, {t.id});
    DeliverForest(w, s1, t.kids, o.0, o.1);
    var out := DeliverF(w, s1, Roots(t.kids), o.0, Settle(o.1));
    TreeDone(s, s1, out, t, v, kind);
  }

  lemma TreeDone(s: State, s1: State, out: State, t: Tree, v: Value, kind: Kind)
    requires t.id < |s.recs| && t.id !in AllIds(t.kids)
    requires var o := Outcome(t, v, kind);
             && Touches(s, s1, {t.id}) && s1.log == s.log + OwnCall(t, v, kind)
             && SettledAs(s1, t.id, o.0, o.1 == Done)
             && AllEvaluated(out, t.kids, o.0, o.1) && out.log == s1.log + TraceAll(t.kids, o.0, o.1)
             && Touches(s1, out, AllIds(t.kids))
    ensures Evaluated(out, t, v, kind) && out.log == s.log + Trace(t, v, kind) && Touches(s, out, Ids(t))
  {
    var o := Outcome(t, v, kind);
    TouchesTrans(s, s1, out, {t.id}, AllIds(t.kids));
    assert out.log == s.log + (OwnCall(t, v, kind) + TraceAll(t.kids, o.0, o.1));
  }

  lemma {:induction false} RootsInRange(s: State, ts: seq<Tree>)
    requires AllShape(s, ts)
    ensures forall j | 0 <= j < |Roots(ts)| :: Roots(ts)[j] < |s.recs|
  {
    if ts != [] { RootsInRange(s, ts[1..]); }
  }

  /** The slot's reference goes when the first tree of a forest is done. */
  lemma FirstTree(w: nat -> nat, s: State, s1: State, id: nat, ids: set<nat>)
    requires Ok(w, s1) && id < |s1.recs| && Touches(s, s1, ids)
    ensures Ok(w, Drop(s1, id)) && Kept(s1, Drop(s1, id)) && Touches(s, Drop(s1, id), ids)
  {
    RefOk(w, s1, id, -1);
    DropKept(w, s1, id);
  }

  lemma {:induction false} DeliverForest(w: nat -> nat, s: State, ts: seq<Tree>, v: Value, kind: Kind)
    requires Ok(w, s) && AllShape(s, ts) && !v.Prom? && PlainForest(ts, v, kind, |s.gens|)
    ensures CanDeliver(w, s, Roots(ts), v)
    ensures var out := DeliverF(w, s, Roots(ts), v, Settle(kind));
            && AllEvaluated(out, ts, v, kind) && out.log == s.log + TraceAll(ts, v, kind)
            && Touches(s, out, AllIds(ts))
    decreases ts, 1
  {
    RootsInRange(s, ts);
    if ts != [] {
      var t, rest := ts[0], ts[1..];
      ResolveTree(w, s, t, v, kind);
      var s1 := ResolveF(w, s, t.id, v, Settle(kind));
      var s2 := Drop(s1, t.id);
      FirstTree(w, s, s1, t.id, Ids(t));
      AllShapeStays(s, s2, rest, Ids(t));
      DeliverForest(w, s2, rest, v, kind);
      assert Roots(ts)[1..] == Roots(rest);
      var out := DeliverF(w, s2, Roots(rest), v, Settle(kind));
      DeliverKept(w, s2, Roots(rest), v, Settle(kind));
      ForestDone(s, s1, s2, out, ts, v, kind);
    }
  }

  lemma ForestDone(s: State, s1: State, s2: State, out: State, ts: seq<Tree>, v: Value, kind: Kind)
    requires ts != [] && Kept(s1, s2) && Kept(s2, out) && Evaluated(s1, ts[0], v, kind)
    requires s2.log == s.log + Trace(ts[0], v, kind) && Touches(s, s2, Ids(ts[0]))
    requires AllEvaluated(out, ts[1..], v, kind) && out.log == s2.log + TraceAll(ts[1..], v, kind)
    requires Touches(s2, out, AllIds(ts[1..]))
    ensures AllEvaluated(out, ts, v, kind) && out.log == s.log + TraceAll(ts, v, kind) && Touches(s, out, AllIds(ts))
  {
    KeptTrans(s1, s2, out);
    EvaluatedStays(s1, out, ts[0], v, kind);
    TouchesTrans(s, s2, out, Ids(ts[0]), AllIds(ts[1..]));
    assert out.log == s.log + (Trace(ts[0], v, kind) + TraceAll(ts[1..], v, kind));
  }
}
