/** A coroutine on any schedule. */
module Schedules {
  import opened Values
  import opened Engine
  import opened Cloning
  import opened Delivery
  import opened Graph
  import opened Permanence
  import opened Operations
  import opened Runs
  import opened Firing
  import opened Coroutines
  import opened Agreement
  import opened Births
  import opened References
  import opened Handlers

  // ---- Every operation ------------------------------------------------------------------------

  /** The promise can be activated from outside: it has not run, and no promise has it as a handler. */
  predicate Ready(s: State, p: nat) { p < |s.recs| && !Fired(s.recs[p]) && Listed(s.recs, p) == 0 }

  /** The operation neither interferes with the coroutine's promise nor smuggles generators in.  It may
      activate the promise, unless that is due to another promise, and make it the handler of one. */
  ghost predicate Harmless(s: State, op: Op, co: Coro) {
    match op
    case New(done, fail, canceler, _) => TidyCallback(done) && TidyCallback(fail) && TidyCallback(canceler)
    case Then(_, done, fail) => TidyCallback(done) && TidyCallback(fail)
    case Append(_, h) => h == co.p && !IsProto(s, h) ==> Ready(s, h)
    case Finish(p, _, v) => Plainly(v) && (p == co.p && Ordinary(s, p) && !Finished(s.recs[p]) ==> Ready(s, p))
    case UserFinish(p, _, v) => Plainly(v) && (p == co.p && Ordinary(s, p) && UserMayFinish(s.recs[p]) ==> Ready(s, p))
    case Invoke(_, v) => Plainly(v)
    case CancelWith(p, _) => p == co.p && Ordinary(s, p) && !Finished(s.recs[p]) ==> Ready(s, p)
    case _ => true
  }

  lemma RefCarried(s: State, x: nat, d: int, co: Coro)
    requires Alive(s, co) && x < |s.recs|
    ensures Carried(s, s.(recs := AddRef(s.recs, x, d)), co)
  {
    var s' := s.(recs := AddRef(s.recs, x, d));
    forall i | 0 <= i < |s.recs| ensures Apart(s', co, i) { assert Apart(s, co, i); }
  }

  lemma CreatedCarried(w: nat -> nat, s: State, r: Rec, co: Coro)
    requires Ok(w, s) && Alive(s, co) && Idle(r) && Tidy(r)
    ensures Carried(s, Created(s, r), co)
  {
    var s' := Created(s, r);
    assert RecOk(w, s, co.p);
    forall i | 0 <= i < |s'.recs| ensures Apart(s', co, i) { assert i < |s.recs| ==> Apart(s, co, i); }
  }

  lemma AppendedCarried(s: State, p: nat, h: nat, co: Coro)
    requires Alive(s, co) && p < |s.recs| && h < |s.recs| && h != co.p
    ensures Carried(s, Appended(s, p, h), co)
  {
    PushCarried(s, p, h, co);
    RefCarried(s.(recs := PushSlot(s.recs, p, h)), h, 1, co);
  }

  lemma ThenCarried(w: nat -> nat, s: State, p: nat, done: Callback, fail: Callback, co: Coro)
    requires Ok(w, s) && Alive(s, co) && p < |s.recs| && TidyCallback(done) && TidyCallback(fail)
    requires Agrees(ThenF(w, s, p, done, fail).recs, co.res)
    ensures Carried(s, ThenF(w, s, p, done, fail), co)
  {
    var r := Pending(done, fail, Callback.Unset, PlainFlags(IsProto(s, p)));
    var s1 := Created(s, r);
    CreatedCarried(w, s, r, co);
    if Finished(s.recs[p]) {
      assert RecOk(w, s, p);
      CreatedOk(w, s, r);
      ResolveKept(w, s1, |s.recs|, s.recs[p].result, Settle(OutcomeKind(s.recs[p])));
      AgreesBack(s1, ThenF(w, s, p, done, fail), co.res);
      assert AgreesAt(s1.recs[p], p, co.res);
      ResolveCarried(w, s1, |s.recs|, s.recs[p].result, Settle(OutcomeKind(s.recs[p])), co);
    } else {
      AppendedCarried(s1, p, |s.recs|, co);
    }
  }

  lemma RemoveCarried(w: nat -> nat, s: State, p: nat, drop: nat -> bool, co: Coro)
    requires Alive(s, co) && SlotsInRange(s.recs, p) && (drop(co.p) ==> s.recs[co.p].await != Some(p))
    ensures Carried(s, RemoveWhere(s, p, drop), co)
  {
    var hs := s.recs[p].handlers;
    ReleasedSlots(w, s, hs, drop, 0);
    var recs := ReleaseSlots(s.recs, hs, drop);
    RecountCarried(s, recs, co);
    FilterCarried(s.(recs := recs), p, drop, co);
    CleanCarried(s.(recs := recs[p := recs[p].(handlers := Filter(recs[p].handlers, drop))]), p, co);
  }

  lemma RecountCarried(s: State, recs: seq<Rec>, co: Coro)
    requires Alive(s, co) && |recs| == |s.recs|
    requires forall j | 0 <= j < |recs| :: recs[j] == s.recs[j].(refs := recs[j].refs)
    ensures Carried(s, s.(recs := recs), co)
  {
    forall i | 0 <= i < |s.recs| ensures Apart(s.(recs := recs), co, i) { assert Apart(s, co, i); }
  }

  lemma FilterCarried(s: State, p: nat, drop: nat -> bool, co: Coro)
    requires Alive(s, co) && p < |s.recs| && (drop(co.p) ==> s.recs[co.p].await != Some(p))
    ensures Carried(s, s.(recs := s.recs[p := s.recs[p].(handlers := Filter(s.recs[p].handlers, drop))]), co)
  {
    FilterCount(s.recs[p].handlers, drop, co.p);
    assert Apart(s, co, p);
    hide Alive, Whole;
    HandlersCarried(s, p, Filter(s.recs[p].handlers, drop), co);
  }

  lemma FinishCarried(w: nat -> nat, s: State, p: nat, v: Value, kind: Kind, co: Coro)
    requires Ok(w, s) && Alive(s, co) && p < |s.recs| && p != co.p && Plainly(v)
    requires Agrees(FinishF(w, s, p, v, Settle(kind)).recs, co.res)
    ensures Carried(s, FinishF(w, s, p, v, Settle(kind)), co)
  {
    if IsProto(s, p) {
      CloneCarried(w, s, p, co);
      ResolveCarried(w, CloneF(w, s, p), |s.recs|, v, Settle(kind), co);
    } else {
      ResolveCarried(w, s, p, v, Settle(kind), co);
    }
  }

  lemma SettleCarried(w: nat -> nat, s: State, p: nat, v: Value, kind: Kind, co: Coro)
    requires Ok(w, s) && Alive(s, co) && p < |s.recs| && p != co.p && Plainly(v)
    requires Agrees(SettleF(w, s, p, v, Settle(kind)).recs, co.res)
    ensures Carried(s, SettleF(w, s, p, v, Settle(kind)), co)
  {
    var out := FinishF(w, s, p, v, Settle(kind));
    if IsProto(s, p) { DropAgrees(out, |s.recs|, co.res); }
    FinishCarried(w, s, p, v, kind, co);
    if IsProto(s, p) { RefCarried(out, |s.recs|, -1, co); }
  }

  lemma CancelCarried(w: nat -> nat, s: State, p: nat, e: int, co: Coro)
    requires Ok(w, s) && Alive(s, co) && p < |s.recs| && p != co.p && !IsProto(s, p) && Ok(w, Canceling(s, p))
    requires Agrees(ResolveF(w, Canceling(s, p), p, Error(e), Cancel).recs, co.res)
    ensures Carried(s, ResolveF(w, Canceling(s, p), p, Error(e), Cancel), co)
  {
    var s1 := Canceling(s, p);
    forall i | 0 <= i < |s.recs| ensures Apart(s1, co, i) { assert Apart(s, co, i); }
    ResolveCarried(w, s1, p, Error(e), Cancel, co);
  }

  lemma NameCarried(s: State, p: nat, name: string, co: Coro)
    requires Alive(s, co) && p < |s.recs|
    ensures Carried(s, s.(recs := s.recs[p := s.recs[p].(name := Some(name))]), co)
  {
    var s' := s.(recs := s.recs[p := s.recs[p].(name := Some(name))]);
    forall i | 0 <= i < |s.recs| ensures Apart(s', co, i) { assert Apart(s, co, i); }
  }

  lemma AppendCarried(s: State, p: nat, h: nat, co: Coro)
    requires Alive(s, co) && p < |s.recs| && h < |s.recs| && h != co.p
    ensures Carried(s, s.(recs := AddRef(Appended(s, p, h).recs, h, 1)), co)
  {
    AppendedCarried(s, p, h, co);
    RefCarried(Appended(s, p, h), h, 1, co);
  }

  /** No operation changes the story of a coroutine. */
  lemma StepCarried(s: State, op: Op, co: Coro)
    requires Good(s) && Legal(s, op) && Alive(s, co) && Harmless(s, op, co) && Agrees(Step(s, op).recs, co.res)
    ensures Carried(s, Step(s, op), co)
  {
    var w := Weights(s);
    AliveFired(s, co);
    hide Alive, Whole, Agrees, ResolveF, CloneF, TryClean;
    match op
    case New(done, fail, canceler, flags) => CreatedCarried(w, s, Pending(done, fail, canceler, flags), co);
    case Then(p, done, fail) => ThenCarried(w, s, p, done, fail, co);
    case Append(p, h) =>
      if p != h { AppendCarried(s, p, h, co); }
    case Forget(p, h) => assert RecOk(w, s, p); RemoveCarried(w, s, p, IsHandler(h), co);
    case ForgetNamed(p, name) => assert RecOk(w, s, p); RemoveCarried(w, s, p, HasName(s.recs, name), co);
    case SetName(p, name) => NameCarried(s, p, name, co);
    case Finish(p, kind, v) =>
      if p == co.p { ResolveStops(w, s, p, v, Settle(kind)); } else { SettleCarried(w, s, p, v, kind, co); }
    case UserFinish(p, kind, v) =>
      if UserMayFinish(s.recs[p]) { SettleCarried(w, s, p, v, kind, co); }
    case Invoke(p, v) => FinishCarried(w, s, p, v, Done, co);
    case CancelWith(p, e) => if !Finished(s.recs[p]) { CancelingOk(w, s, p); CancelCarried(w, s, p, e, co); }
    case Release(p) => RefCarried(s, p, -1, co);
  }

  lemma AliveFired(s: State, co: Coro)
    requires Alive(s, co)
    ensures Ordinary(s, co.p) && Fired(s.recs[co.p]) && Carried(s, s, co)
  {
  }

  // ---- Every operation before the coroutine begins --------------------------------------------

  lemma EarlyCreated(w: nat -> nat, s: State, r: Rec, co: Coro)
    requires Ok(w, s) && Early(s, co) && Idle(r) && Tidy(r)
    ensures Early(Created(s, r), co) && (co.p == |s.recs| ==> Listed(Created(s, r).recs, co.p) == 0)
  {
    assert Created(s, r).recs[..|s.recs|] == s.recs;
    if co.p >= |s.recs| { NewUnlisted(w, s, co.p); }
    hide Ok, TidyCallback;
  }

  lemma EarlyAppended(s: State, p: nat, h: nat, co: Coro)
    requires Early(s, co) && p < |s.recs| && h < |s.recs|
    requires h == co.p && Ordinary(s, h) ==> Listed(s.recs, h) == 0
    ensures Early(Appended(s, p, h), co)
  {
    EarlyPush(s, p, h, co);
    EarlyRef(s.(recs := PushSlot(s.recs, p, h)), h, 1, co);
  }

  lemma EarlyThen(w: nat -> nat, s: State, p: nat, done: Callback, fail: Callback, co: Coro)
    requires Ok(w, s) && Early(s, co) && Once(s) && p < |s.recs| && TidyCallback(done) && TidyCallback(fail)
    requires Agrees(ThenF(w, s, p, done, fail).recs, co.res)
    ensures Tracked(ThenF(w, s, p, done, fail), co)
  {
    var r := Pending(done, fail, Callback.Unset, PlainFlags(IsProto(s, p)));
    var s1 := Created(s, r);
    EarlyCreated(w, s, r, co);
    if Finished(s.recs[p]) {
      assert RecOk(w, s, p);
      CreatedOk(w, s, r);
      Extends(s, s1);
      ResolveKept(w, s1, |s.recs|, s.recs[p].result, Settle(OutcomeKind(s.recs[p])));
      AgreesBack(s1, ThenF(w, s, p, done, fail), co.res);
      assert AgreesAt(s1.recs[p], p, co.res);
      EarlyResolve(w, s1, |s.recs|, s.recs[p].result, Settle(OutcomeKind(s.recs[p])), co);
    } else {
      EarlyAppended(s1, p, |s.recs|, co);
      EarlyBound(Appended(s1, p, |s.recs|), co);
    }
  }

  lemma EarlyRemove(w: nat -> nat, s: State, p: nat, drop: nat -> bool, co: Coro)
    requires Early(s, co) && SlotsInRange(s.recs, p)
    ensures Early(RemoveWhere(s, p, drop), co)
  {
    var hs := s.recs[p].handlers;
    ReleasedSlots(w, s, hs, drop, 0);
    FilterCount(hs, drop, co.p);
    var recs := ReleaseSlots(s.recs, hs, drop);
    ListedSame(s.recs, recs, co.p);
    var s1 := s.(recs := recs[p := recs[p].(handlers := Filter(hs, drop))]);
    ListedUpdate(recs, p, s1.recs[p], co.p);
    hide Listed, TidyCallback;
    EarlyStays(s, s1, co);
    EarlyClean(s1, p, co);
  }

  lemma EarlyFinish(w: nat -> nat, s: State, p: nat, v: Value, kind: Kind, co: Coro)
    requires Ok(w, s) && Early(s, co) && Once(s) && p < |s.recs| && Plainly(v)
    requires p == co.p && Ordinary(s, p) ==> Listed(s.recs, p) == 0
    requires Agrees(FinishF(w, s, p, v, Settle(kind)).recs, co.res)
    ensures Tracked(FinishF(w, s, p, v, Settle(kind)), co)
  {
    if IsProto(s, p) {
      EarlyClone(w, s, p, co);
      CloneAdvances(w, s, p);
      EarlyResolve(w, CloneF(w, s, p), |s.recs|, v, Settle(kind), co);
    } else {
      EarlyResolve(w, s, p, v, Settle(kind), co);
    }
  }

  lemma TrackedDrop(s: State, x: nat, co: Coro)
    requires Tracked(s, co) && x < |s.recs|
    ensures Tracked(Drop(s, x), co)
  {
    if Begun(s, co) {
      DropAdvances(s, x);
      if Alive(s, co) { DropCarried(s, x, co); }
      ToldStays(s, Drop(s, x), co);
    } else {
      EarlyRef(s, x, -1, co);
      EarlyBound(Drop(s, x), co);
    }
  }

  lemma EarlySettle(w: nat -> nat, s: State, p: nat, v: Value, kind: Kind, co: Coro)
    requires Ok(w, s) && Early(s, co) && Once(s) && p < |s.recs| && Plainly(v)
    requires p == co.p && Ordinary(s, p) ==> Listed(s.recs, p) == 0
    requires Agrees(SettleF(w, s, p, v, Settle(kind)).recs, co.res)
    ensures Tracked(SettleF(w, s, p, v, Settle(kind)), co)
  {
    var out := FinishF(w, s, p, v, Settle(kind));
    if IsProto(s, p) { DropAgrees(out, |s.recs|, co.res); }
    EarlyFinish(w, s, p, v, kind, co);
    if IsProto(s, p) { TrackedDrop(out, |s.recs|, co); }
  }

  lemma EarlyCancel(w: nat -> nat, s: State, p: nat, e: int, co: Coro)
    requires Ok(w, s) && Early(s, co) && Once(s) && p < |s.recs| && !IsProto(s, p) && Ok(w, Canceling(s, p))
    requires p == co.p ==> Listed(s.recs, p) == 0
    requires Agrees(ResolveF(w, Canceling(s, p), p, Error(e), Cancel).recs, co.res)
    ensures Tracked(ResolveF(w, Canceling(s, p), p, Error(e), Cancel), co)
  {
    var s1 := Canceling(s, p);
    ListedSame(s.recs, s1.recs, co.p);
    EarlyStays(s, s1, co);
    Extends(s, s1);
    EarlyResolve(w, s1, p, Error(e), Cancel, co);
  }

  lemma EarlyName(s: State, p: nat, name: string, co: Coro)
    requires Early(s, co) && p < |s.recs|
    ensures Early(s.(recs := s.recs[p := s.recs[p].(name := Some(name))]), co)
  {
    var s' := s.(recs := s.recs[p := s.recs[p].(name := Some(name))]);
    ListedSame(s.recs, s'.recs, co.p);
    hide Listed, TidyCallback;
    EarlyStays(s, s', co);
  }

  lemma EarlyAppend(s: State, p: nat, h: nat, co: Coro)
    requires Early(s, co) && p < |s.recs| && h < |s.recs|
    requires h == co.p && Ordinary(s, h) ==> Listed(s.recs, h) == 0
    ensures Early(s.(recs := AddRef(Appended(s, p, h).recs, h, 1)), co)
  {
    EarlyAppended(s, p, h, co);
    EarlyRef(Appended(s, p, h), h, 1, co);
  }

  lemma IsTracked(s: State, co: Coro)
    requires Early(s, co)
    ensures Tracked(s, co)
  {
    EarlyBound(s, co);
  }

  /** An operation leaves the coroutine as it was before its start, or starts it. */
  lemma EarlyStep(s: State, op: Op, co: Coro)
    requires Good(s) && Legal(s, op) && Early(s, co) && Once(s) && Harmless(s, op, co)
    requires Agrees(Step(s, op).recs, co.res)
    ensures Tracked(Step(s, op), co)
  {
    var w := Weights(s);
    hide Early, Told, Once, Agrees, ResolveF, CloneF, TryClean, Listed;
    match op
    case New(done, fail, canceler, flags) =>
      EarlyCreated(w, s, Pending(done, fail, canceler, flags), co);
      IsTracked(Step(s, op), co);
    case Then(p, done, fail) => EarlyThen(w, s, p, done, fail, co);
    case Append(p, h) =>
      if p != h { EarlyAppend(s, p, h, co); }
      IsTracked(Step(s, op), co);
    case Forget(p, h) =>
      assert RecOk(w, s, p);
      EarlyRemove(w, s, p, IsHandler(h), co);
      IsTracked(Step(s, op), co);
    case ForgetNamed(p, name) =>
      assert RecOk(w, s, p);
      EarlyRemove(w, s, p, HasName(s.recs, name), co);
      IsTracked(Step(s, op), co);
    case SetName(p, name) =>
      EarlyName(s, p, name, co);
      IsTracked(Step(s, op), co);
    case Finish(p, kind, v) => EarlyMayFinish(s, p, co); EarlySettle(w, s, p, v, kind, co);
    case UserFinish(p, kind, v) =>
      if UserMayFinish(s.recs[p]) { EarlySettle(w, s, p, v, kind, co); } else { IsTracked(s, co); }
    case Invoke(p, v) => EarlyFinish(w, s, p, v, Done, co);
    case CancelWith(p, e) =>
      if Finished(s.recs[p]) {
        IsTracked(s, co);
      } else {
        CancelingOk(w, s, p);
        EarlyCancel(w, s, p, e, co);
      }
    case Release(p) => IsTracked(s, co); TrackedDrop(s, p, co);
  }

  lemma EarlyMayFinish(s: State, p: nat, co: Coro)
    requires Early(s, co)
    ensures p == co.p && Ordinary(s, p) ==> !Finished(s.recs[p])
  {
  }

  /** Before and after its start. */
  lemma TrackedStep(s: State, op: Op, co: Coro)
    requires Good(s) && Legal(s, op) && Tracked(s, co) && Once(s) && Harmless(s, op, co)
    requires Agrees(Step(s, op).recs, co.res)
    ensures Tracked(Step(s, op), co)
  {
    if Begun(s, co) {
      StepAdvances(s, op);
      if Alive(s, co) { StepCarried(s, op, co); }
      hide Step, Alive, Good, Legal;
      ToldStays(s, Step(s, op), co);
    } else {
      EarlyStep(s, op, co);
    }
  }

  // ---- Every schedule -------------------------------------------------------------------------

  lemma SettledAgree(trace: seq<State>, ops: seq<Op>, j: nat, k: nat, res: Outcomes)
    requires IsRun(trace, ops) && j <= k <= |ops| && Agrees(trace[k].recs, res)
    ensures Agrees(trace[j].recs, res)
  {
    forall q | 0 <= q < |trace[j].recs| && Finished(trace[j].recs[q]) ensures AgreesAt(trace[j].recs[q], q, res) {
      SettledForever(trace, ops, j, k, q);
      assert AgreesAt(trace[k].recs[q], q, res);
    }
  }

  /** From `j` to `k` the run does nothing to the coroutine but perhaps start it. */
  ghost predicate Undisturbed(trace: seq<State>, ops: seq<Op>, j: nat, k: nat, co: Coro)
    requires j <= k <= |ops| < |trace|
  {
    forall i | j <= i < k :: Harmless(trace[i], ops[i], co)
  }

  lemma {:induction false} RunTracked(trace: seq<State>, ops: seq<Op>, j: nat, k: nat, co: Coro)
    requires IsRun(trace, ops) && Once(trace[0]) && j <= k <= |ops| && Tracked(trace[j], co)
    requires Undisturbed(trace, ops, j, k, co) && Agrees(trace[k].recs, co.res)
    ensures Tracked(trace[k], co)
    decreases k
  {
    if j < k {
      SettledAgree(trace, ops, k - 1, k, co.res);
      RunTracked(trace, ops, j, k - 1, co);
      RunGood(trace, ops, k - 1);
      OnceStays(trace, ops, k - 1);
      assert StepsTo(trace, ops, k - 1);
      hide Tracked, Once, Agrees, Step;
      TrackedStep(trace[k - 1], ops[k - 1], co);
    }
  }

  /** In state `k` promise `co.p` has settled, and its callback, whenever and by whatever it was called
      since state `j`, made generator `co.g` with script `sc`; the script names promises and generators
      that existed in state `j`. */
  ghost predicate Ran(trace: seq<State>, ops: seq<Op>, j: nat, k: nat, co: Coro, sc: Script) {
    && IsRun(trace, ops) && Once(trace[0]) && j <= k <= |ops| && Early(trace[j], co)
    && Undisturbed(trace, ops, j, k, co) && Agrees(trace[k].recs, co.res) && Names(sc, co.ids, co.m)
    && co.p < |trace[k].recs| && Finished(trace[k].recs[co.p])
    && Calls(trace[k].log, co.p) == [Some(Creation(co.g, sc))]
  }

  /** However a coroutine is started - by its own settlement, by the delivery to a handler, by `then` on
      a settled promise or by the invocation of a sequence - and however a run schedules the promises it
      waits for: once it has settled, it has been sent and thrown exactly what its script asks for, and
      has settled with what its script returns, as a pure function of the outcomes of those promises. */
  lemma CoroutineStory(trace: seq<State>, ops: seq<Op>, j: nat, k: nat, co: Coro, sc: Script)
    requires Ran(trace, ops, j, k, co, sc)
    ensures var r := trace[k].recs[co.p];
            Story(Sent(trace[k].log, co.g), r.result, OutcomeKind(r)) == Begin(co.res, sc)
  {
    IsTracked(trace[j], co);
    RunTracked(trace, ops, j, k, co);
    assert ToldBy(trace[k], co, sc);
  }

  lemma {:induction false} SoloSame(a: Outcomes, b: Outcomes, ids: set<nat>, m: nat, sc: Script, v: Value, kind: Kind)
    requires Names(sc, ids, m) && forall q | q in ids :: a(q) == b(q)
    ensures Solo(a, sc, v, kind) == Solo(b, sc, v, kind)
    decreases sc
  {
    if sc.Yield? {
      var next := Continue(sc, if kind.Done? then Send(v) else Throw(v));
      NamesContinue(sc, if kind.Done? then Send(v) else Throw(v), ids, m);
      if next.Yield? {
        var o := Look(a, next.v, kind);
        assert Live(next.v, ids, m);
        SoloSame(a, b, ids, m, next, o.0, o.1);
      }
    }
  }

  /** A story depends on the outcomes of the promises that its script names. */
  lemma BeginSame(a: Outcomes, b: Outcomes, ids: set<nat>, m: nat, sc: Script)
    requires Names(sc, ids, m) && forall q | q in ids :: a(q) == b(q)
    ensures Begin(a, sc) == Begin(b, sc)
  {
    match sc
    case Yield(y, _) =>
      var o := Look(a, y, Done);
      SoloSame(a, b, ids, m, sc, o.0, o.1);
    case Return(_) => SoloSame(a, b, ids, m, sc, Null, Done);
    case Raise(_) =>
  }

  /** Async and sync agree: two runs of the same script that see the same outcomes of the promises it
      names give the generator the same sends and throws, and settle it alike, even when in the second
      run every promise it yields had settled beforehand and the first run waited for each of them. */
  lemma SchedulesAgree(trace: seq<State>, ops: seq<Op>, j: nat, k: nat, co: Coro,
                       trace': seq<State>, ops': seq<Op>, j': nat, k': nat, co': Coro, sc: Script)
    requires Ran(trace, ops, j, k, co, sc) && Ran(trace', ops', j', k', co', sc)
    requires forall q | q in co.ids :: co.res(q) == co'.res(q)
    ensures Sent(trace[k].log, co.g) == Sent(trace'[k'].log, co'.g)
    ensures trace[k].recs[co.p].result == trace'[k'].recs[co'.p].result
    ensures OutcomeKind(trace[k].recs[co.p]) == OutcomeKind(trace'[k'].recs[co'.p])
  {
    CoroutineStory(trace, ops, j, k, co, sc);
    CoroutineStory(trace', ops', j', k', co', sc);
    BeginSame(co.res, co'.res, co.ids, co.m, sc);
  }
}
