/** What a program can do to promises, one operation at a time and in whole runs. */
module Operations {
  import opened Values
  import opened Engine
  import opened Cloning
  import opened Delivery
  import opened Graph
  import opened Permanence
  import opened References

  datatype Op =
    | New(done: Callback, fail: Callback, canceler: Callback, flags: Flags)
    | Then(p: nat, done: Callback, fail: Callback)
    | Append(p: nat, h: nat)
    | Forget(p: nat, h: nat)
    | ForgetNamed(p: nat, name: string)
    | SetName(p: nat, name: string)
    | Finish(p: nat, kind: Kind, v: Value)
    | UserFinish(p: nat, kind: Kind, v: Value)
    | Invoke(p: nat, v: Value)
    | CancelWith(p: nat, e: int)
    | Release(p: nat)

  /** Some weights witness that the prototypes are acyclic, and nobody is stuck. */
  ghost predicate Good(s: State) { exists w: nat -> nat :: Quiescent(w, s) }

  ghost function Weights(s: State): (w: nat -> nat)
    requires Good(s)
    ensures Quiescent(w, s)
  {
    var w: nat -> nat :| Quiescent(w, s); w
  }

  /** A callback that the constructors accept. */
  predicate Callable(cb: Callback) { cb.Php? ==> cb.required <= 1 }

  function Pending(done: Callback, fail: Callback, canceler: Callback, flags: Flags): Rec {
    Rec(flags, done, fail, canceler, None, None, Null, [], None, 1)
  }

  function PlainFlags(proto: bool): Flags { Flags(false, false, false, false, false, proto, false) }

  // ---- Removing handlers ----------------------------------------------------------------------

  function Filter(hs: seq<nat>, drop: nat -> bool): seq<nat> {
    if hs == [] then [] else (if drop(hs[0]) then [] else [hs[0]]) + Filter(hs[1..], drop)
  }

  /** Every slot whose handler satisfies `drop` gives its reference back. */
  function ReleaseSlots(recs: seq<Rec>, hs: seq<nat>, drop: nat -> bool): (out: seq<Rec>)
    requires forall j | 0 <= j < |hs| :: hs[j] < |recs|
    ensures |out| == |recs|
    decreases |hs|
  {
    if hs == [] then recs
    else ReleaseSlots(if drop(hs[0]) then AddRef(recs, hs[0], -1) else recs, hs[1..], drop)
  }

  predicate SlotsInRange(recs: seq<Rec>, p: nat) {
    p < |recs| && forall j | 0 <= j < |recs[p].handlers| :: recs[p].handlers[j] < |recs|
  }

  lemma SlotsOk(w: nat -> nat, s: State, p: nat)
    requires Ok(w, s) && p < |s.recs|
    ensures SlotsInRange(s.recs, p)
  {
    assert RecOk(w, s, p);
  }

  /** ion_promisor_remove and ion_promisor_remove_named. */
  function RemoveWhere(s: State, p: nat, drop: nat -> bool): State
    requires SlotsInRange(s.recs, p)
  {
    var recs := ReleaseSlots(s.recs, s.recs[p].handlers, drop);
    TryClean(s.(recs := recs[p := recs[p].(handlers := Filter(recs[p].handlers, drop))]), p)
  }

  function IsHandler(h: nat): nat -> bool { (x: nat) => x == h }

  function HasName(recs: seq<Rec>, name: string): nat -> bool {
    (x: nat) => x < |recs| && recs[x].name == Some(name)
  }

  // ---- The operations -------------------------------------------------------------------------

  function Created(s: State, r: Rec): State { s.(recs := s.recs + [r]) }

  function Appended(s: State, p: nat, h: nat): State
    requires p < |s.recs| && h < |s.recs|
  {
    s.(recs := AddRef(PushSlot(s.recs, p, h), h, 1))
  }

  function Canceling(s: State, p: nat): State
    requires p < |s.recs|
  {
    s.(recs := s.recs[p := s.recs[p].(flags := s.recs[p].flags.(canceled := true))])
  }

  /** What the operations ask of their callers: live handles, callable callbacks, plain data, no
      appending to a settled promise, no cycle of prototypes, no forgetting of a waiting promise. */
  ghost predicate Legal(s: State, op: Op) {
    match op
    case New(done, fail, canceler, f) =>
      !f.processing && !f.done && !f.failed && !f.canceled && !(f.proto && f.isInternal)
    case Then(p, done, fail) => p < |s.recs| && Callable(done) && Callable(fail)
    case Append(p, h) =>
      p < |s.recs| && h < |s.recs| && !Finished(s.recs[p])
      && (IsProto(s, p) && IsProto(s, h) && p != h ==> exists w: nat -> nat :: Ok(w, Appended(s, p, h)))
    case Forget(p, h) => p < |s.recs| && (h < |s.recs| ==> s.recs[h].await != Some(p))
    case ForgetNamed(p, name) =>
      p < |s.recs| && forall x | 0 <= x < |s.recs| && HasName(s.recs, name)(x) :: s.recs[x].await != Some(p)
    case SetName(p, _) => p < |s.recs|
    case Finish(p, _, v) => p < |s.recs| && !v.Prom?
    case UserFinish(p, _, v) => p < |s.recs| && !v.Prom?
    case Invoke(p, v) => IsProto(s, p) && !v.Prom?
    case CancelWith(p, _) => p < |s.recs| && !IsProto(s, p)
    case Release(p) => p < |s.recs| && Outside(s.recs, p) > 0
  }

  /** ion_promisor_done_ex: a prototype resolves a clone of itself and returns it. */
  ghost function FinishF(w: nat -> nat, s: State, p: nat, v: Value, sig: Signal): (out: State)
    requires Ok(w, s) && p < |s.recs| && !v.Prom?
    ensures Ok(w, out) && |s.recs| <= |out.recs| && (IsProto(s, p) ==> |s.recs| < |out.recs|)
  {
    if IsProto(s, p) then ResolveF(w, CloneF(w, s, p), |s.recs|, v, sig) else ResolveF(w, s, p, v, sig)
  }

  /** The guards of ResolvablePromise::done and fail. */
  predicate UserMayFinish(r: Rec) {
    !Finished(r) && !r.flags.isInternal && r.await.None? && r.gen.None?
  }

  ghost function Step(s: State, op: Op): State
    requires Good(s) && Legal(s, op)
  {
    var w := Weights(s);
    match op
    case New(done, fail, canceler, flags) => Created(s, Pending(done, fail, canceler, flags))
    case Then(p, done, fail) => ThenF(w, s, p, done, fail)
    case Append(p, h) => if p == h then s else s.(recs := AddRef(Appended(s, p, h).recs, h, 1))
    case Forget(p, h) => assert RecOk(w, s, p); RemoveWhere(s, p, IsHandler(h))
    case ForgetNamed(p, name) => assert RecOk(w, s, p); RemoveWhere(s, p, HasName(s.recs, name))
    case SetName(p, name) => s.(recs := s.recs[p := s.recs[p].(name := Some(name))])
    case Finish(p, kind, v) => SettleF(w, s, p, v, Settle(kind))
    case UserFinish(p, kind, v) =>
      if UserMayFinish(s.recs[p]) then SettleF(w, s, p, v, Settle(kind)) else s
    case Invoke(p, v) => FinishF(w, s, p, v, Settle(Done))
    case CancelWith(p, e) =>
      if Finished(s.recs[p]) then s
      else (CancelingOk(w, s, p); ResolveF(w, Canceling(s, p), p, Error(e), Cancel))
    case Release(p) => Drop(s, p)
  }

  /** ion_promisor_done and ion_promisor_fail: the clone is not kept. */
  ghost function SettleF(w: nat -> nat, s: State, p: nat, v: Value, sig: Signal): State
    requires Ok(w, s) && p < |s.recs| && !v.Prom?
  {
    var out := FinishF(w, s, p, v, sig);
    if IsProto(s, p) then Drop(out, |s.recs|) else out
  }

  /** ion_promisor_push_callbacks: a settled promise answers at once, any other takes a new handler. */
  ghost function ThenF(w: nat -> nat, s: State, p: nat, done: Callback, fail: Callback): State
    requires Ok(w, s) && p < |s.recs|
  {
    var s1 := Created(s, Pending(done, fail, Callback.Unset, PlainFlags(IsProto(s, p))));
    if Finished(s.recs[p]) then
      assert RecOk(w, s, p);
      CreatedOk(w, s, Pending(done, fail, Callback.Unset, PlainFlags(false)));
      ResolveF(w, s1, |s.recs|, s.recs[p].result, Settle(OutcomeKind(s.recs[p])))
    else
      Appended(s1, p, |s.recs|)
  }

  /** How many references to `i` the operation hands to the program. */
  function Handed(s: State, op: Op, i: nat): int {
    match op
    case New(_, _, _, _) => Is(i == |s.recs|)
    case Then(_, _, _) => Is(i == |s.recs|)
    case Append(p, h) => Is(i == h && p != h)
    case Invoke(_, _) => Is(i == |s.recs|)
    case Release(p) => -Is(i == p)
    case _ => 0
  }

  // ---- Every operation keeps the graph --------------------------------------------------------

  ghost predicate Idle(r: Rec) {
    !Finished(r) && r.await.None? && r.gen.None? && r.handlers == [] && !r.flags.processing
  }

  lemma CreatedOk(w: nat -> nat, s: State, r: Rec)
    requires Ok(w, s) && Idle(r) && !r.flags.proto
    ensures Ok(w, Created(s, r)) && Load(w, Created(s, r).recs) == Load(w, s.recs) + 1
  {
    var s1 := Created(s, r);
    assert s1.recs[..|s.recs|] == s.recs;
    forall i | 0 <= i < |s1.recs| ensures RecOk(w, s1, i) { assert i < |s.recs| ==> RecOk(w, s, i); }
  }

  lemma CancelingOk(w: nat -> nat, s: State, p: nat)
    requires Ok(w, s) && p < |s.recs|
    ensures Ok(w, Canceling(s, p))
  {
    var s1 := Canceling(s, p);
    forall i | 0 <= i < |s1.recs| ensures RecOk(w, s1, i) { assert RecOk(w, s, i); }
  }
}
