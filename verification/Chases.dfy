/** When following promises settled with promises ends. */
module Chases {
  import opened Values
  import opened Engine

  /** The driver looks at `v`, finds a settled promise, and goes on with its result. */
  predicate Follows(recs: seq<Rec>, v: Value) { v.Prom? && v.id < |recs| && Finished(recs[v.id]) }

  /** The value after at most `n` such jumps. */
  function Hops(recs: seq<Rec>, v: Value, n: nat): Value
    decreases n
  {
    if n == 0 || !Follows(recs, v) then v else Hops(recs, recs[v.id].result, n - 1)
  }

  predicate Stops(recs: seq<Rec>, v: Value, n: nat) { !Follows(recs, Hops(recs, v, n)) }

  ghost predicate Halts(recs: seq<Rec>, v: Value) { exists n: nat :: Stops(recs, v, n) }

  ghost predicate AllHalt(recs: seq<Rec>) { forall v: Value :: Halts(recs, v) }

  /** Where the jumps from `v` end. */
  ghost function End(recs: seq<Rec>, v: Value): Value
    requires Halts(recs, v)
  {
    var n: nat :| Stops(recs, v, n); Hops(recs, v, n)
  }

  lemma {:induction false} HopsAdd(recs: seq<Rec>, v: Value, a: nat, b: nat)
    ensures Hops(recs, v, a + b) == Hops(recs, Hops(recs, v, a), b)
    decreases a
  {
    if a > 0 && Follows(recs, v) { HopsAdd(recs, recs[v.id].result, a - 1, b); }
  }

  /** The end does not depend on how many jumps more are allowed. */
  lemma EndUnique(recs: seq<Rec>, v: Value, n: nat)
    requires Stops(recs, v, n)
    ensures Halts(recs, v) && End(recs, v) == Hops(recs, v, n)
  {
    var m: nat :| Stops(recs, v, m) && End(recs, v) == Hops(recs, v, m);
    if n <= m { HopsAdd(recs, v, n, m - n); } else { HopsAdd(recs, v, m, n - m); }
  }

  /** Promise `q` has settled with `v`. */
  predicate Source(recs: seq<Rec>, q: nat, v: Value, kind: Kind) {
    q < |recs| && Finished(recs[q]) && recs[q].result == v && OutcomeKind(recs[q]) == kind
  }

  /** The loop itself. */
  method Chase(recs: seq<Rec>, start: Value, startKind: Kind) returns (v: Value, kind: Kind)
    requires Halts(recs, start)
    ensures v == End(recs, start) && !Follows(recs, v)
    ensures if Follows(recs, start) then exists q :: Source(recs, q, v, kind) else v == start && kind == startKind
  {
    v, kind := start, startKind;
    ghost var n: nat :| Stops(recs, start, n);
    EndUnique(recs, start, n);
    while v.Prom? && v.id < |recs| && (recs[v.id].flags.done || recs[v.id].flags.failed)
      invariant Stops(recs, v, n) && Hops(recs, v, n) == End(recs, start)
      invariant (v == start && kind == startKind) || (Follows(recs, start) && exists q :: Source(recs, q, v, kind))
      decreases n
    {
      ghost var q := v.id;
      kind := OutcomeKind(recs[v.id]);
      v := recs[v.id].result;
      assert Source(recs, q, v, kind);
      n := n - 1;
    }
  }

  /** While nothing has settled with a promise, one jump is enough. */
  lemma PlainHalts(recs: seq<Rec>, v: Value)
    requires PlainResults(recs)
    ensures Halts(recs, v)
  {
    assert Hops(recs, v, 1) == if Follows(recs, v) then Hops(recs, recs[v.id].result, 0) else v;
    assert Stops(recs, v, 1);
  }

  /** The driver's own look at a value is a look at the end of its chain, with the kind found there. */
  lemma WatchChases(recs: seq<Rec>, gens: seq<Script>, log: seq<Event>, gen: Option<nat>, v: Value, kind: Kind,
      skip: bool)
    requires PlainResults(recs) && (gen.Some? ==> gen.value < |gens|)
    ensures Halts(recs, v)
    ensures Watch(recs, gens, log, gen, v, kind, skip)
         == Watch(recs, gens, log, gen, End(recs, v), if Follows(recs, v) then OutcomeKind(recs[v.id]) else kind, skip)
  {
    PlainHalts(recs, v);
    EndUnique(recs, v, 1);
    if Follows(recs, v) {
      assert Hops(recs, v, 1) == Hops(recs, recs[v.id].result, 0) == recs[v.id].result;
    }
  }

  // ---- Settling a promise with any value ------------------------------------------------------

  /** Promise `p` has settled with `v`, perhaps a promise. */
  ghost predicate SettledWith(recs: seq<Rec>, recs': seq<Rec>, p: nat, v: Value) {
    && p < |recs| && !Finished(recs[p]) && |recs'| == |recs|
    && Finished(recs'[p]) && recs'[p].result == v
    && forall i | 0 <= i < |recs| && i != p :: recs'[i] == recs[i]
  }

  lemma {:induction false} Avoids(recs: seq<Rec>, recs': seq<Rec>, p: nat, u: Value, v: Value, n: nat)
    requires SettledWith(recs, recs', p, u) && Stops(recs, v, n) && Hops(recs, v, n) != Prom(p)
    ensures Stops(recs', v, n) && Hops(recs', v, n) == Hops(recs, v, n)
    decreases n
  {
    if Follows(recs, v) { Avoids(recs, recs', p, u, recs[v.id].result, n - 1); }
  }

  lemma {:induction false} Reaches(recs: seq<Rec>, recs': seq<Rec>, p: nat, u: Value, v: Value, n: nat) returns (m: nat)
    requires SettledWith(recs, recs', p, u) && Hops(recs, v, n) == Prom(p)
    ensures Hops(recs', v, m) == Prom(p) && forall k: nat | k <= m :: !Stops(recs', v, k)
    decreases n
  {
    if v == Prom(p) {
      m := 0;
    } else {
      var next := recs[v.id].result;
      m := Reaches(recs, recs', p, u, next, n - 1);
      m := m + 1;
      forall k: nat | k <= m ensures !Stops(recs', v, k) {
        if k > 0 { assert !Stops(recs', next, k - 1); }
      }
    }
  }

  lemma {:induction false} Circles(recs: seq<Rec>, v: Value, period: nat, n: nat)
    requires period > 0 && Hops(recs, v, period) == v && forall k: nat | k <= period :: !Stops(recs, v, k)
    ensures !Stops(recs, v, n)
  {
    if n > period {
      HopsAdd(recs, v, period, n - period);
      Circles(recs, v, period, n - period);
    }
  }

  /** Settling `p` with `v` leaves every chase finite exactly if the chase from `v`, before the call,
      does not end at `p` itself. */
  lemma SettlingHalts(recs: seq<Rec>, recs': seq<Rec>, p: nat, v: Value)
    requires AllHalt(recs) && SettledWith(recs, recs', p, v)
    ensures Halts(recs, v)
    ensures AllHalt(recs') <==> End(recs, v) != Prom(p)
  {
    assert Halts(recs, v);
    var n: nat :| Stops(recs, v, n);
    EndUnique(recs, v, n);
    if Hops(recs, v, n) == Prom(p) {
      var m := Reaches(recs, recs', p, v, v, n);
      Cycle(recs', p, v, m);
    } else {
      Avoids(recs, recs', p, v, v, n);
      forall x: Value ensures Halts(recs', x) { StillHalts(recs, recs', p, v, n, x); }
    }
  }

  lemma Cycle(recs: seq<Rec>, p: nat, v: Value, m: nat)
    requires Follows(recs, Prom(p)) && recs[p].result == v
    requires Hops(recs, v, m) == Prom(p) && forall k: nat | k <= m :: !Stops(recs, v, k)
    ensures !Halts(recs, Prom(p))
  {
    forall k: nat | k <= m + 1 ensures !Stops(recs, Prom(p), k) {
      if k > 0 { assert !Stops(recs, v, k - 1); }
    }
    forall n: nat ensures !Stops(recs, Prom(p), n) { Circles(recs, Prom(p), m + 1, n); }
  }

  lemma StillHalts(recs: seq<Rec>, recs': seq<Rec>, p: nat, v: Value, n: nat, x: Value)
    requires Halts(recs, x) && SettledWith(recs, recs', p, v) && Stops(recs', v, n)
    ensures Halts(recs', x)
  {
    var k: nat :| Stops(recs, x, k);
    if Hops(recs, x, k) == Prom(p) {
      var m := Reaches(recs, recs', p, v, x, k);
      HopsAdd(recs', x, m, 1 + n);
      assert Stops(recs', x, m + (1 + n));
    } else {
      Avoids(recs, recs', p, v, x, k);
    }
  }

  /** A promise that has settled with itself is chased for ever. */
  lemma SelfSettled(recs: seq<Rec>, p: nat)
    requires p < |recs| && Finished(recs[p]) && recs[p].result == Prom(p)
    ensures !Halts(recs, Prom(p))
  {
    Cycle(recs, p, Prom(p), 0);
  }

  // ---- Runs of settlements --------------------------------------------------------------------

  /** Promises may be added and anything but outcomes may change. */
  ghost predicate SameOutcomes(recs: seq<Rec>, recs': seq<Rec>) {
    && |recs| <= |recs'|
    && (forall i | 0 <= i < |recs| :: Finished(recs'[i]) == Finished(recs[i]) && recs'[i].result == recs[i].result)
    && (forall i | |recs| <= i < |recs'| :: !Finished(recs'[i]))
  }

  lemma {:induction false} SameHops(recs: seq<Rec>, recs': seq<Rec>, v: Value, n: nat)
    requires SameOutcomes(recs, recs')
    ensures Hops(recs', v, n) == Hops(recs, v, n) && Stops(recs', v, n) == Stops(recs, v, n)
    decreases n
  {
    if n > 0 && Follows(recs, v) { SameHops(recs, recs', recs[v.id].result, n - 1); }
  }

  /** One step: outcomes stay, or one promise settles with a value whose chain does not end at it. */
  ghost predicate Acyclic(recs: seq<Rec>, recs': seq<Rec>) {
    || SameOutcomes(recs, recs')
    || (exists p: nat, v: Value :: SettledWith(recs, recs', p, v) && Halts(recs, v) && End(recs, v) != Prom(p))
  }

  /** A run in which no settlement closes a cycle never gets stuck in a chase, even when promises settle
      with promises. */
  lemma {:induction false} RunHalts(trace: seq<seq<Rec>>, k: nat)
    requires k < |trace| && AllHalt(trace[0]) && forall i | 0 <= i < |trace| - 1 :: Acyclic(trace[i], trace[i + 1])
    ensures AllHalt(trace[k])
  {
    if k > 0 {
      RunHalts(trace, k - 1);
      var a, b := trace[k - 1], trace[k];
      assert Acyclic(trace[k - 1], trace[k - 1 + 1]);
      if SameOutcomes(a, b) {
        forall v: Value ensures Halts(b, v) {
          assert Halts(a, v);
          var n: nat :| Stops(a, v, n);
          SameHops(a, b, v, n);
        }
      } else {
        var p: nat, v: Value :| SettledWith(a, b, p, v) && Halts(a, v) && End(a, v) != Prom(p);
        SettlingHalts(a, b, p, v);
      }
    }
  }
}
