/** A coroutine from before its start: nobody but the owner of its one slot, or the program, activates its
    promise, and the story that begins then is that of its script. */
module Births {
  import opened Values
  import opened Engine
  import opened Cloning
  import opened Delivery
  import opened Permanence
  import opened References
  import opened Firing
  import opened Coroutines
  import opened Agreement

  // ---- Birth ----------------------------------------------------------------------------------

  /** Promise `co.p` is pending, nobody refers to it as a handler, and a signal makes its generator
      callback create a generator with script `sc`. */
  ghost predicate Born(s: State, co: Coro, data: Value, sig: Signal, sc: Script) {
    && co.p < |s.recs| && !s.recs[co.p].flags.proto && !Fired(s.recs[co.p]) && s.recs[co.p].gen.None?
    && co.g == |s.gens| && co.m <= |s.gens| && Names(sc, co.ids, co.m)
    && (forall q | q in co.ids :: q < |s.recs| && !s.recs[q].flags.proto)
    && (forall i | 0 <= i < |s.recs| :: Tidy(s.recs[i]) && s.recs[i].gen != Some(co.g) && co.p !in s.recs[i].handlers)
    && var cb := Pick(s.recs[co.p], sig, data);
       !cb.Unset? && !Skips(cb) && Call(cb, data) == Fresh(sc)
  }

  /** What the first run of a coroutine says about its story. */
  ghost predicate Opens(log: seq<Event>, run: Run, co: Coro, sc: Script) {
    && co.g < |run.gens| && Names(run.gens[co.g], co.ids, co.m)
    && match run
       case Settles(x, k, _, log') => Story(Sent(log', co.g), x, k) == After(Sent(log, co.g), Begin(co.res, sc))
       case Suspends(q, gen, gens', log') =>
         && q in co.ids && (gen == None || gen == Some(co.g))
         && var rest := if gen.Some? then Solo(co.res, gens'[co.g], co.res(q).0, co.res(q).1)
                        else Story([], co.res(q).0, co.res(q).1);
            After(Sent(log', co.g), rest) == After(Sent(log, co.g), Begin(co.res, sc))
  }

  lemma BirthRuns(s: State, co: Coro, data: Value, sig: Signal, sc: Script)
    requires Born(s, co, data, sig, sc) && CanDrive(s, co.p) && PlainResults(s.recs) && !data.Prom?
    ensures Drive(s, co.p, data, sig)
         == Watch(s.recs, s.gens + [sc], s.log + [Called(co.p, sig, data, Some(Creation(co.g, sc)))], None, Gen(co.g),
                  Done, false)
  {
  }

  lemma BirthOpens(s: State, co: Coro, data: Value, sig: Signal, sc: Script)
    requires Born(s, co, data, sig, sc) && CanDrive(s, co.p) && PlainResults(s.recs) && Agrees(s.recs, co.res)
    requires !data.Prom?
    ensures |s.gens| <= |Drive(s, co.p, data, sig).gens| && Opens(s.log, Drive(s, co.p, data, sig), co, sc)
  {
    BirthRuns(s, co, data, sig, sc);
    ScriptOpens(s, Called(co.p, sig, data, Some(Creation(co.g, sc))), co, sc);
  }

  /** A new generator `co.g` is driven from its start. */
  lemma ScriptOpens(s: State, e: Event, co: Coro, sc: Script)
    requires PlainResults(s.recs) && AgreesOn(s.recs, co.ids, co.res) && InRecs(s.recs, co.ids) && !e.Resumed?
    requires co.g == |s.gens| && co.m <= |s.gens| && Names(sc, co.ids, co.m)
    ensures var run := Watch(s.recs, s.gens + [sc], s.log + [e], None, Gen(co.g), Done, false);
            |s.gens| <= |run.gens| && Opens(s.log, run, co, sc)
  {
    var log, gens := s.log + [e], s.gens + [sc];
    SentMore(s.log, e, co.g);
    assert Scene(s.recs, gens, co.g, co.res, co.ids, co.m);
    assert Names(sc, co.ids, co.m);
    hide Watch, Feed, Resolved, Solo, Names, Tells, Opens, Scene;
    var run := Watch(s.recs, gens, log, None, Gen(co.g), Done, false);
    WatchGenerator(s.recs, gens, log, co.g, Done);
    if sc.Raise? {
      RaiseOpens(s, co, log, gens, sc);
    } else {
      var y := if sc.Yield? then sc.v else Null;
      LiveYield(sc, y, co.ids, co.m);
      if y.Gen? { YieldedGenerator(s.recs, gens, log, co.g, y, Done); }
      WatchTells(s.recs, gens, log, co.g, y, Done, false, co.res, co.ids, co.m);
      TellsOpens(s.log, log, gens, run, co, sc);
    }
  }

  lemma RaiseOpens(s: State, co: Coro, log: seq<Event>, gens: seq<Script>, sc: Script)
    requires PlainResults(s.recs) && co.g < |gens| && sc.Raise? && Sent(log, co.g) == Sent(s.log, co.g)
    ensures Opens(s.log, Watch(s.recs, gens[co.g := Return(Null)], log, None, Error(sc.e), Failed, false), co, sc)
  {
    hide Sent;
    assert Sent(log, co.g) + [] == Sent(log, co.g);
  }

  lemma TellsOpens(before: seq<Event>, log: seq<Event>, gens: seq<Script>, run: Run, co: Coro, sc: Script)
    requires co.g < |gens| && Sent(log, co.g) == Sent(before, co.g) && !sc.Raise?
    requires var o := Look(co.res, if sc.Yield? then sc.v else Null, Done);
             Tells(co.res, gens, log, co.g, co.ids, co.m, run, Solo(co.res, sc, o.0, o.1))
    ensures Opens(before, run, co, sc)
  {
    hide Sent, Solo, Names;
  }

  lemma LiveYield(sc: Script, y: Value, ids: set<nat>, m: nat)
    requires Names(sc, ids, m) && y == if sc.Yield? then sc.v else Null
    ensures Live(y, ids, m)
  {
  }

  lemma YieldedGenerator(recs: seq<Rec>, gens: seq<Script>, log: seq<Event>, g: nat, y: Value, kind: Kind)
    requires PlainResults(recs) && g < |gens| && y.Gen? && y.g < |gens|
    ensures Watch(recs, gens, log, Some(g), y, kind, false) == Feed(recs, gens, log, g, y, kind, false)
  {
  }

  /** A started coroutine whose story is `st`. */
  ghost predicate Telling(s: State, co: Coro, st: Story) { Alive(s, co) && Whole(s, co) == st }

  lemma BirthWaits(s: State, co: Coro, data: Value, sig: Signal, sc: Script, run: Run)
    requires Born(s, co, data, sig, sc) && CanDrive(s, co.p) && Opens(s.log, run, co, sc)
    requires run.Suspends? && RunOk(s.recs, |s.gens|, run)
    ensures Telling(Waiting(s, co.p, run), co, After(Sent(s.log, co.g), Begin(co.res, sc)))
  {
    var s' := Waiting(s, co.p, run);
    WaitingFields(s, co.p, run, co.p);
    forall i | 0 <= i < |s.recs| ensures Apart(s', co, i) {
      WaitingFields(s, co.p, run, i);
      assert multiset(s.recs[i].handlers)[co.p] == 0;
    }
    forall q | q in co.ids ensures q < |s'.recs| && !s'.recs[q].flags.proto { WaitingFields(s, co.p, run, q); }
  }

  lemma BirthCloses(s: State, co: Coro, data: Value, sig: Signal, sc: Script, run: Run)
    requires Born(s, co, data, sig, sc) && CanDrive(s, co.p) && Opens(s.log, run, co, sc)
    requires run.Settles? && RunOk(s.recs, |s.gens|, run)
    ensures Telling(Closed(s, co.p, run), co, After(Sent(s.log, co.g), Begin(co.res, sc)))
  {
    var s' := Closed(s, co.p, run);
    forall i | 0 <= i < |s.recs| ensures Apart(s', co, i) {
      assert multiset(s.recs[i].handlers)[co.p] == 0;
    }
  }

  /** A new coroutine's story is what its script says, given how the promises it yields end. */
  lemma BirthCarried(w: nat -> nat, s: State, co: Coro, data: Value, sig: Signal, sc: Script)
    requires CanResolve(w, s, co.p, data) && Born(s, co, data, sig, sc)
    requires Agrees(ResolveF(w, s, co.p, data, sig).recs, co.res)
    ensures Telling(ResolveF(w, s, co.p, data, sig), co, After(Sent(s.log, co.g), Begin(co.res, sc)))
  {
    OkDrives(w, s, co.p);
    ResolveKept(w, s, co.p, data, sig);
    AgreesBack(s, ResolveF(w, s, co.p, data, sig), co.res);
    BirthOpens(s, co, data, sig, sc);
    var run := Drive(s, co.p, data, sig);
    if run.Suspends? {
      BirthWaits(s, co, data, sig, sc, run);
    } else {
      SettleOk(w, s, co.p, run);
      BirthCloses(s, co, data, sig, sc, run);
      var s1 := Closed(s, co.p, run);
      var hs := s.recs[co.p].handlers;
      DeliverKept(w, s1, hs, run.v, Settle(run.kind));
      AgreesBack(s1, DeliverF(w, s1, hs, run.v, Settle(run.kind)), co.res);
      assert AgreesAt(s1.recs[co.p], co.p, co.res);
      DeliverCarried(w, s1, hs, run.v, run.kind, co);
    }
  }

  // ---- Before birth ---------------------------------------------------------------------------

  /** How many slots of a record hold promise `p`, and how many there are in all. */
  function Slots(p: nat): Rec -> nat { (r: Rec) => multiset(r.handlers)[p] }

  function Listed(recs: seq<Rec>, p: nat): nat { Sum(Slots(p), recs) }

  predicate Ordinary(s: State, p: nat) { p < |s.recs| && !s.recs[p].flags.proto }

  /** What the coroutine's promise must be before it is activated: it may not exist yet, and when it
      does it has done nothing and is handler of one promise at most. */
  ghost predicate Early(s: State, co: Coro) {
    && co.m <= |s.gens| && (forall q | q in co.ids :: Ordinary(s, q))
    && (forall i | 0 <= i < |s.recs| :: Tidy(s.recs[i]))
    && (co.p < |s.recs| ==> !Fired(s.recs[co.p]) && s.recs[co.p].gen.None?)
    && (Ordinary(s, co.p) ==> Listed(s.recs, co.p) <= 1)
  }

  predicate Begun(s: State, co: Coro) { co.p < |s.recs| && Fired(s.recs[co.p]) }

  /** If the call of the promise's callback made generator `co.g`, its story is what its script says. */
  ghost predicate Told(s: State, co: Coro) { forall sc: Script :: ToldBy(s, co, sc) }

  ghost predicate ToldBy(s: State, co: Coro, sc: Script) {
    Calls(s.log, co.p) == [Some(Creation(co.g, sc))] && Names(sc, co.ids, co.m) ==> Telling(s, co, Begin(co.res, sc))
  }

  ghost predicate Tracked(s: State, co: Coro) { if Begun(s, co) then Told(s, co) else Early(s, co) }

  /** From `s`, where `n` slots of the promise are in the hands of loops, to `s'`: the promise begins
      only through one of its slots, and keeps to them otherwise. */
  ghost predicate Moves(s: State, s': State, co: Coro, n: nat) {
    if Begun(s', co) then
      Told(s', co) && (Ordinary(s, co.p) ==> Listed(s.recs, co.p) + n >= 1)
    else
      Early(s', co) && (Ordinary(s, co.p) ==> Ordinary(s', co.p) && Listed(s'.recs, co.p) <= Listed(s.recs, co.p))
  }

  /** A record that is as calm as before. */
  ghost predicate Calm(s: State, s': State, co: Coro, i: nat)
    requires i < |s.recs| <= |s'.recs|
  {
    var r, r' := s.recs[i], s'.recs[i];
    && r'.flags.proto == r.flags.proto && (Tidy(r) ==> Tidy(r'))
    && (i == co.p ==> r'.gen == r.gen && Fired(r') == Fired(r))
  }

  lemma EarlyStays(s: State, s': State, co: Coro)
    requires Early(s, co) && |s'.recs| == |s.recs| && |s.gens| <= |s'.gens|
    requires forall i | 0 <= i < |s.recs| :: Calm(s, s', co, i)
    requires Ordinary(s, co.p) ==> Listed(s'.recs, co.p) <= 1
    ensures Early(s', co) && !Begun(s', co) && !Begun(s, co)
    ensures Ordinary(s, co.p) == Ordinary(s', co.p)
  {
    hide Tidy;
    forall q: nat ensures Ordinary(s', q) == Ordinary(s, q) { if q < |s.recs| { assert Calm(s, s', co, q); } }
    forall i | 0 <= i < |s'.recs| ensures Tidy(s'.recs[i]) { assert Calm(s, s', co, i); }
    if co.p < |s.recs| { assert Calm(s, s', co, co.p); }
  }

  lemma ListedUpdate(recs: seq<Rec>, i: nat, r: Rec, p: nat)
    requires i < |recs|
    ensures Listed(recs[i := r], p) + multiset(recs[i].handlers)[p] == Listed(recs, p) + multiset(r.handlers)[p]
  {
    SumUpdate(Slots(p), recs, i, r);
  }

  /** Records that differ in other fields than their handlers list a promise equally often. */
  lemma {:induction false} ListedSame(a: seq<Rec>, b: seq<Rec>, p: nat)
    requires |a| == |b| && forall i | 0 <= i < |a| :: a[i].handlers == b[i].handlers
    ensures Listed(a, p) == Listed(b, p)
  {
    if a != [] { ListedSame(a[..|a| - 1], b[..|b| - 1], p); }
  }

  lemma {:induction false} Unlisted(recs: seq<Rec>, p: nat)
    requires forall i, j | 0 <= i < |recs| && 0 <= j < |recs[i].handlers| :: recs[i].handlers[j] != p
    ensures Listed(recs, p) == 0
  {
    if recs != [] { Unlisted(recs[..|recs| - 1], p); }
  }

  lemma NewUnlisted(w: nat -> nat, s: State, p: nat)
    requires Ok(w, s) && p >= |s.recs|
    ensures Listed(s.recs, p) == 0
  {
    forall i, j | 0 <= i < |s.recs| && 0 <= j < |s.recs[i].handlers| ensures s.recs[i].handlers[j] != p {
      assert RecOk(w, s, i);
    }
    Unlisted(s.recs, p);
  }

  lemma ListedAtLeast(recs: seq<Rec>, i: nat, p: nat)
    requires i < |recs|
    ensures Listed(recs, p) >= multiset(recs[i].handlers)[p]
  {
    ListedUpdate(recs, i, recs[i].(handlers := []), p);
  }

  lemma EarlyRef(s: State, x: nat, d: int, co: Coro)
    requires Early(s, co) && x < |s.recs|
    ensures var s' := s.(recs := AddRef(s.recs, x, d)); Early(s', co) && Listed(s'.recs, co.p) == Listed(s.recs, co.p)
  {
    var s' := s.(recs := AddRef(s.recs, x, d));
    ListedSame(s.recs, s'.recs, co.p);
    hide Listed, TidyCallback;
    EarlyStays(s, s', co);
  }

  lemma EarlyClean(s: State, t: nat, co: Coro)
    requires Early(s, co) && t < |s.recs|
    ensures Early(TryClean(s, t), co) && TryClean(s, t).recs == s.recs
  {
  }

  /** A slot is added; the promise itself must not be listed yet. */
  lemma EarlyPush(s: State, c: nat, x: nat, co: Coro)
    requires Early(s, co) && c < |s.recs| && (x == co.p && Ordinary(s, x) ==> Listed(s.recs, x) == 0)
    ensures var s' := s.(recs := PushSlot(s.recs, c, x));
            && Early(s', co) && (x != co.p ==> Listed(s'.recs, co.p) == Listed(s.recs, co.p))
  {
    var s' := s.(recs := PushSlot(s.recs, c, x));
    ListedUpdate(s.recs, c, s'.recs[c], co.p);
    hide Listed, TidyCallback;
    EarlyStays(s, s', co);
  }

  lemma EarlyWaiting(s: State, h: nat, run: Run, co: Coro)
    requires Early(s, co) && CanDrive(s, h) && h != co.p && run.Suspends? && RunOk(s.recs, |s.gens|, run)
    ensures Moves(s, Waiting(s, h, run), co, 0)
  {
    var s' := Waiting(s, h, run);
    forall i | 0 <= i < |s.recs| ensures Calm(s, s', co, i) { WaitingFields(s, h, run, i); }
    WaitingListed(s, h, run, co.p);
    hide Listed, Waiting, Tidy;
    EarlyStays(s, s', co);
  }

  lemma WaitingListed(s: State, h: nat, run: Run, p: nat)
    requires CanDrive(s, h) && run.Suspends? && run.q < |s.recs| && h != p
    ensures Listed(Waiting(s, h, run).recs, p) == Listed(s.recs, p)
  {
    var recs := s.recs[run.q := s.recs[run.q].(handlers := s.recs[run.q].handlers + [h])];
    ListedUpdate(s.recs, run.q, recs[run.q], p);
    forall i | 0 <= i < |s.recs| ensures recs[i].handlers == Waiting(s, h, run).recs[i].handlers {
      WaitingFields(s, h, run, i);
    }
    hide Waiting, Listed;
    ListedSame(recs, Waiting(s, h, run).recs, p);
  }

  lemma EarlyClosed(s: State, h: nat, run: Run, co: Coro)
    requires Early(s, co) && CanDrive(s, h) && h != co.p && run.Settles? && RunOk(s.recs, |s.gens|, run)
    ensures Early(Closed(s, h, run), co) && !Begun(Closed(s, h, run), co)
    ensures Ordinary(s, co.p) == Ordinary(Closed(s, h, run), co.p)
    ensures Listed(Closed(s, h, run).recs, co.p) + multiset(s.recs[h].handlers)[co.p] == Listed(s.recs, co.p)
  {
    var s' := Closed(s, h, run);
    forall i | 0 <= i < |s.recs| ensures Calm(s, s', co, i) { ClosedFields(s, h, run, i); }
    ClosedListed(s, h, run, co.p);
    hide Listed, Closed, Tidy;
    EarlyStays(s, s', co);
  }

  lemma ClosedListed(s: State, h: nat, run: Run, p: nat)
    requires CanDrive(s, h) && run.Settles?
    ensures Listed(Closed(s, h, run).recs, p) + multiset(s.recs[h].handlers)[p] == Listed(s.recs, p)
  {
    var recs := s.recs[h := s.recs[h].(handlers := [])];
    ListedUpdate(s.recs, h, recs[h], p);
    forall i | 0 <= i < |s.recs| ensures recs[i].handlers == Closed(s, h, run).recs[i].handlers {
      ClosedFields(s, h, run, i);
    }
    hide Closed, Listed;
    ListedSame(recs, Closed(s, h, run).recs, p);
  }
  // ---- Cloning --------------------------------------------------------------------------------

  lemma EarlyBlank(w: nat -> nat, s: State, t: nat, co: Coro)
    requires Ok(w, s) && IsProto(s, t) && Early(s, co)
    ensures var s1 := s.(recs := s.recs + [Blank(s.recs[t])]);
            && Early(s1, co) && Listed(s1.recs, co.p) == Listed(s.recs, co.p)
            && (co.p >= |s.recs| ==> Listed(s1.recs, co.p) == 0)
  {
    var s1 := s.(recs := s.recs + [Blank(s.recs[t])]);
    assert s1.recs[..|s.recs|] == s.recs;
    assert RecOk(w, s, t);
    if co.p >= |s.recs| { NewUnlisted(w, s, co.p); }
    assert Tidy(Blank(s.recs[t])) by { assert Tidy(s.recs[t]); }
    hide Ok, RecOk, TidyCallback;
  }

  /** Moving a handler keeps the number of slots of every promise. */
  lemma EarlyMove(s: State, t: nat, c: nat, k: nat, co: Coro)
    requires Early(s, co) && t < |s.recs| && c < |s.recs| && c != t && k < |s.recs[t].handlers|
    requires s.recs[t].handlers[k] < |s.recs|
    ensures var s' := s.(recs := MoveSlot(s.recs, t, c, k));
            Early(s', co) && Listed(s'.recs, co.p) == Listed(s.recs, co.p)
  {
    var s' := s.(recs := MoveSlot(s.recs, t, c, k));
    MovedListed(s.recs, t, c, k, co.p);
    forall i | 0 <= i < |s.recs| ensures Calm(s, s', co, i) { MovedFields(s, t, c, k, i); }
    hide Listed, MoveSlot, Tidy;
    EarlyStays(s, s', co);
  }

  lemma MovedListed(recs: seq<Rec>, t: nat, c: nat, k: nat, p: nat)
    requires t < |recs| && c < |recs| && c != t && k < |recs[t].handlers| && recs[t].handlers[k] < |recs|
    ensures Listed(MoveSlot(recs, t, c, k), p) == Listed(recs, p)
  {
    var x, hs := recs[t].handlers[k], recs[t].handlers;
    var r1 := PushSlot(recs, c, x);
    var r2 := Relink(r1, x, t, c);
    var r3 := DropSlot(r2, t, k);
    ListedUpdate(recs, c, r1[c], p);
    RelinkSlots(r1, x, t, c);
    ListedSame(r1, r2, p);
    ListedUpdate(r2, t, r3[t], p);
    assert hs == hs[..k] + [hs[k]] + hs[k + 1..];
  }

  lemma RelinkSlots(recs: seq<Rec>, x: nat, t: nat, c: nat)
    requires x < |recs| && t < |recs| && c < |recs|
    ensures var r := Relink(recs, x, t, c);
            |r| == |recs| && forall i | 0 <= i < |recs| :: r[i].handlers == recs[i].handlers
  {
  }

  /** Cloning lists nobody more often; a clone is listed once at most, and the outermost not at all. */
  ghost predicate Spread(s: State, s': State, co: Coro, top: nat) {
    && Early(s', co) && |s.recs| <= |s'.recs|
    && (Ordinary(s, co.p) ==> Ordinary(s', co.p) && Listed(s'.recs, co.p) <= Listed(s.recs, co.p))
    && (co.p == top ==> Listed(s'.recs, co.p) == 0)
  }

  lemma {:induction false} EarlyClone(w: nat -> nat, s: State, t: nat, co: Coro)
    requires Ok(w, s) && IsProto(s, t) && Early(s, co)
    ensures Spread(s, CloneF(w, s, t), co, |s.recs|)
    decreases w(t), |s.recs[t].handlers| + 1
  {
    var s1 := s.(recs := s.recs + [Blank(s.recs[t])]);
    NewOk(w, s, t);
    CloneUnfolds(w, s, t);
    EarlyBlank(w, s, t, co);
    EarlySlots(w, s1, t, |s.recs|, 0, co);
    EarlyClean(CloneSlots(w, s1, t, |s.recs|, 0), t, co);
  }

  lemma SpreadTrans(a: State, b: State, c: State, co: Coro, top: nat)
    requires Spread(a, b, co, top) && Spread(b, c, co, top)
    ensures Spread(a, c, co, top)
  {
    hide Early, Listed;
  }

  lemma NestedSpread(s: State, s1: State, c: nat, co: Coro)
    requires Spread(s, s1, co, |s.recs|) && Ordinary(s, c) && (co.p == c ==> Listed(s.recs, c) == 0)
    ensures Spread(s, s1.(recs := PushSlot(s1.recs, c, |s.recs|)), co, c)
  {
    EarlyPush(s1, c, |s.recs|, co);
    hide Early, Listed;
  }

  lemma MovedSpread(s: State, t: nat, c: nat, k: nat, co: Coro)
    requires Early(s, co) && t < |s.recs| && c < |s.recs| && c != t && k < |s.recs[t].handlers|
    requires s.recs[t].handlers[k] < |s.recs| && (co.p == c ==> Listed(s.recs, c) == 0)
    ensures Spread(s, s.(recs := MoveSlot(s.recs, t, c, k)), co, c)
  {
    EarlyMove(s, t, c, k, co);
    if co.p < |s.recs| { MovedFields(s, t, c, k, co.p); }
    hide Early, Listed;
  }

  /** The clone `c` is filled; nobody lists it. */
  lemma {:induction false} EarlySlots(w: nat -> nat, s: State, t: nat, c: nat, k: nat, co: Coro)
    requires Cloneable(w, s, t, c, k) && Early(s, co) && (co.p == c ==> Listed(s.recs, c) == 0)
    ensures Spread(s, CloneSlots(w, s, t, c, k), co, c)
    decreases w(t), |s.recs[t].handlers| - k
  {
    var hs := s.recs[t].handlers;
    hide Ok, Early, MoveSlot, Listed;
    if k < |hs| {
      SlotLighter(w, s, t, k);
      if IsProto(s, hs[k]) {
        var s1 := CloneF(w, s, hs[k]);
        var s2 := s1.(recs := PushSlot(s1.recs, c, |s.recs|));
        NestedOk(w, s, t, c, k, s1, s2);
        EarlyClone(w, s, hs[k], co);
        NestedSpread(s, s1, c, co);
        NestedUnfolds(w, s, t, c, k, s2);
        EarlySlots(w, s2, t, c, k + 1, co);
        SpreadTrans(s, s2, CloneSlots(w, s2, t, c, k + 1), co, c);
      } else {
        var s2 := s.(recs := MoveSlot(s.recs, t, c, k));
        MoveOk(w, s, t, c, k, s2);
        MovedSpread(s, t, c, k, co);
        MovedUnfolds(w, s, t, c, k, s2);
        EarlySlots(w, s2, t, c, k, co);
        SpreadTrans(s, s2, CloneSlots(w, s2, t, c, k), co, c);
      }
    }
  }

  // ---- Delivery -------------------------------------------------------------------------------

  lemma ToldStays(s: State, s': State, co: Coro)
    requires Begun(s, co) && Told(s, co) && Advances(s, s') && (Alive(s, co) ==> Carried(s, s', co))
    ensures Begun(s', co) && Told(s', co)
  {
    hide Alive, Whole;
    forall sc: Script ensures ToldBy(s', co, sc) { assert ToldBy(s, co, sc); }
  }

  /** The activation of the promise: its calls afterwards are its own call, if it makes one. */
  lemma BirthTold(w: nat -> nat, s: State, data: Value, sig: Signal, co: Coro)
    requires CanResolve(w, s, co.p, data) && !data.Gen? && Early(s, co) && Once(s) && Listed(s.recs, co.p) == 0
    requires Agrees(ResolveF(w, s, co.p, data, sig).recs, co.res)
    ensures var out := ResolveF(w, s, co.p, data, sig); Begun(out, co) && Told(out, co)
  {
    var out := ResolveF(w, s, co.p, data, sig);
    ResolveAdvances(w, s, co.p, data, sig);
    BirthCalls(w, s, data, sig, co);
    hide ResolveF, Advances;
    forall sc: Script ensures ToldBy(out, co, sc) {
      if Calls(out.log, co.p) == [Some(Creation(co.g, sc))] && Names(sc, co.ids, co.m) {
        IsBorn(w, s, data, sig, sc, co);
        BirthCarried(w, s, co, data, sig, sc);
        NeverSent(s.log, co.g);
        assert After([], Begin(co.res, sc)) == Begin(co.res, sc);
      }
    }
  }

  lemma BirthCalls(w: nat -> nat, s: State, data: Value, sig: Signal, co: Coro)
    requires CanResolve(w, s, co.p, data) && Once(s) && !Fired(s.recs[co.p])
    ensures Calls(ResolveF(w, s, co.p, data, sig).log, co.p) == OwnCalls(s, co.p, data, sig)
  {
    assert OnceAt(s, co.p);
    ResolveUnfolds(w, s, co.p, data, sig);
    DriveCalls(s, co.p, data, sig, co.p);
    var run, hs := Drive(s, co.p, data, sig), s.recs[co.p].handlers;
    RunFires(s, co.p, run);
    if run.Settles? { DeliverAdvances(w, Closed(s, co.p, run), hs, run.v, Settle(run.kind)); }
  }

  lemma IsBorn(w: nat -> nat, s: State, data: Value, sig: Signal, sc: Script, co: Coro)
    requires CanResolve(w, s, co.p, data) && Early(s, co) && Listed(s.recs, co.p) == 0
    requires OwnCalls(s, co.p, data, sig) == [Some(Creation(co.g, sc))] && Names(sc, co.ids, co.m)
    requires Agrees(ResolveF(w, s, co.p, data, sig).recs, co.res)
    ensures Born(s, co, data, sig, sc)
  {
    forall i | 0 <= i < |s.recs| ensures s.recs[i].gen != Some(co.g) && co.p !in s.recs[i].handlers {
      assert RecOk(w, s, i);
      ListedAtLeast(s.recs, i, co.p);
    }
    var cb := Pick(s.recs[co.p], sig, data);
    if Skips(cb) { SkipSettles(w, s, data, sig, sc, co); }
  }

  /** A function that is no generator itself settles its promise with the generator that it returns. */
  lemma SkipSettles(w: nat -> nat, s: State, data: Value, sig: Signal, sc: Script, co: Coro)
    requires CanResolve(w, s, co.p, data) && !Fired(s.recs[co.p]) && s.recs[co.p].gen.None?
    requires var cb := Pick(s.recs[co.p], sig, data); !cb.Unset? && Skips(cb) && Call(cb, data) == Fresh(sc)
    ensures !Agrees(ResolveF(w, s, co.p, data, sig).recs, co.res)
  {
    ResolveUnfolds(w, s, co.p, data, sig);
    var g, log := |s.gens|, s.log + [Called(co.p, sig, data, Some(Creation(|s.gens|, sc)))];
    var run := Drive(s, co.p, data, sig);
    assert run == Watch(s.recs, s.gens + [sc], log, None, Gen(g), Done, true)
      == Settles(Gen(g), Done, s.gens + [sc], log);
    var s1, out := Closed(s, co.p, run), ResolveF(w, s, co.p, data, sig);
    ClosedFields(s, co.p, run, co.p);
    DeliverKept(w, s1, s.recs[co.p].handlers, run.v, Settle(run.kind));
    assert KeptAt(s1, out, co.p) && !AgreesAt(out.recs[co.p], co.p, co.res);
  }

  lemma {:induction false} NeverSent(log: seq<Event>, g: nat)
    requires Logged(log, g)
    ensures Sent(log, g) == []
  {
    if log != [] {
      assert Logged(log[..|log| - 1], g);
      NeverSent(log[..|log| - 1], g);
    }
  }

  lemma ClosedPlain(w: nat -> nat, s: State, h: nat, run: Run, res: Outcomes)
    requires Ok(w, s) && CanDrive(s, h) && run.Settles? && !Finished(s.recs[h])
    requires var s1, hs := Closed(s, h, run), s.recs[h].handlers;
             CanDeliver(w, s1, hs, run.v) && Agrees(DeliverF(w, s1, hs, run.v, Settle(run.kind)).recs, res)
    ensures !run.v.Gen?
  {
    var s1, hs := Closed(s, h, run), s.recs[h].handlers;
    DeliverKept(w, s1, hs, run.v, Settle(run.kind));
    AgreesBack(s1, DeliverF(w, s1, hs, run.v, Settle(run.kind)), res);
    ClosedFields(s, h, run, h);
    assert AgreesAt(s1.recs[h], h, res);
  }

  lemma MovesFrom(s: State, s1: State, out: State, co: Coro, n: nat, m: nat)
    requires Early(s, co) && Moves(s1, out, co, n)
    requires Ordinary(s, co.p) ==>
               && Ordinary(s1, co.p) && Listed(s1.recs, co.p) + n <= Listed(s.recs, co.p) + m
               && Listed(s1.recs, co.p) <= Listed(s.recs, co.p)
    ensures Moves(s, out, co, m)
  {
    hide Early, Told, Listed;
  }

  /** Giving a reference back changes nothing for the coroutine. */
  lemma MovesDrop(s: State, s': State, x: nat, co: Coro, n: nat)
    requires Moves(s, s', co, n) && x < |s'.recs|
    ensures Moves(s, Drop(s', x), co, n)
  {
    if Begun(s', co) {
      forall sc: Script ensures ToldBy(Drop(s', x), co, sc) {
        assert ToldBy(s', co, sc);
        if Alive(s', co) { DropCarried(s', x, co); }
      }
    } else {
      EarlyRef(s', x, -1, co);
    }
  }

  lemma EarlyCloned(s: State, s1: State, s2: State, h: nat, c: nat, co: Coro, n: nat)
    requires Early(s, co) && c == |s.recs| && h < |s1.recs| && c < |s2.recs| && Spread(s, s1, co, c)
    requires Moves(Drop(s1, h), s2, co, if c == co.p then 1 else 0)
    ensures Moves(s, Drop(s2, c), co, n)
  {
    EarlyRef(s1, h, -1, co);
    hide Early, Told, Listed;
    assert Moves(s, s2, co, n);
    MovesDrop(s, s2, c, co, n);
  }

  /** Resolving any promise, the coroutine's own or another. */
  lemma {:induction false} EarlyResolve(w: nat -> nat, s: State, h: nat, data: Value, sig: Signal, co: Coro)
    requires CanResolve(w, s, h, data) && !data.Gen? && Early(s, co) && Once(s)
    requires h == co.p ==> Listed(s.recs, co.p) == 0
    requires Agrees(ResolveF(w, s, h, data, sig).recs, co.res)
    ensures Moves(s, ResolveF(w, s, h, data, sig), co, if h == co.p then 1 else 0)
    decreases Load(w, s.recs), 0
  {
    var out := ResolveF(w, s, h, data, sig);
    if h == co.p {
      BirthTold(w, s, data, sig, co);
    } else if Finished(s.recs[h]) {
      ResolveStops(w, s, h, data, sig);
    } else {
      ResolveUnfolds(w, s, h, data, sig);
      var run, hs: seq<nat> := Drive(s, h, data, sig), s.recs[h].handlers;
      RunAdvances(w, s, h, data, sig);
      hide Ok, Early, Once, ResolveF, Drive, Load, Agrees, Advances;
      if run.Suspends? {
        EarlyWaiting(s, h, run, co);
      } else {
        var s1 := Closed(s, h, run);
        ClosedPlain(w, s, h, run, co.res);
        EarlyClosed(s, h, run, co);
        OnceAdvances(s, s1);
        EarlyBound(s, co);
        EarlyDeliver(w, s1, hs, run.v, run.kind, co);
        MovesFrom(s, s1, out, co, multiset(hs)[co.p], 0);
      }
    }
  }

  lemma OnceAdvances(s: State, s': State)
    requires Once(s) && Advances(s, s')
    ensures Once(s')
  {
  }

  lemma EarlyBound(s: State, co: Coro)
    requires Early(s, co)
    ensures !Begun(s, co) && (Ordinary(s, co.p) ==> Listed(s.recs, co.p) <= 1)
  {
  }

  lemma {:induction false} EarlyOne(w: nat -> nat, s: State, h: nat, v: Value, kind: Kind, co: Coro)
    requires Ok(w, s) && !v.Prom? && !v.Gen? && h < |s.recs| && Early(s, co) && Once(s)
    requires h == co.p && !IsProto(s, h) ==> Listed(s.recs, co.p) == 0
    requires Agrees(DeliverOne(w, s, h, v, Settle(kind)).recs, co.res)
    ensures Moves(s, DeliverOne(w, s, h, v, Settle(kind)), co, if h == co.p then 1 else 0)
    decreases Load(w, s.recs) + w(h), 1
  {
    OneUnfolds(w, s, h, v, Settle(kind));
    if IsProto(s, h) {
      var s1, c := CloneF(w, s, h), |s.recs|;
      EarlyClone(w, s, h, co);
      CloneAdvances(w, s, h);
      OnceAdvances(s, s1);
      EarlyRef(s1, h, -1, co);
      DropAdvances(s1, h);
      var s2 := ResolveF(w, Drop(s1, h), c, v, Settle(kind));
      DropAgrees(s2, c, co.res);
      hide Ok, Early, Once, ResolveF, DeliverOne, CloneF, Load, Agrees, Advances;
      OnceAdvances(s1, Drop(s1, h));
      EarlyResolve(w, Drop(s1, h), c, v, Settle(kind), co);
      EarlyCloned(s, s1, s2, h, c, co, if h == co.p then 1 else 0);
    } else {
      var s2 := ResolveF(w, s, h, v, Settle(kind));
      DropAgrees(s2, h, co.res);
      hide Ok, Early, Once, ResolveF, DeliverOne, Load, Agrees;
      EarlyResolve(w, s, h, v, Settle(kind), co);
      MovesDrop(s, s2, h, co, if h == co.p then 1 else 0);
    }
  }

  /** The loop's slots and those of the records are one at most, so the promise begins at its own turn. */
  ghost predicate OneSlot(s: State, co: Coro, hs: seq<nat>) {
    && (Ordinary(s, co.p) ==> Listed(s.recs, co.p) + multiset(hs)[co.p] <= 1)
    && (co.p >= |s.recs| ==> multiset(hs)[co.p] == 0)
  }

  lemma FirstSlot(s: State, hs: seq<nat>, co: Coro)
    requires OneSlot(s, co, hs) && hs != [] && hs[0] < |s.recs|
    ensures hs[0] == co.p && !IsProto(s, hs[0]) ==> Listed(s.recs, co.p) == 0
    ensures multiset(hs)[co.p] == multiset(hs[1..])[co.p] + if hs[0] == co.p then 1 else 0
  {
    assert hs == [hs[0]] + hs[1..];
    hide Listed;
  }

  lemma NextSlot(s: State, s1: State, hs: seq<nat>, co: Coro)
    requires hs != [] && Early(s, co) && OneSlot(s, co, hs) && |s.recs| <= |s1.recs| && hs[0] < |s.recs|
    requires Moves(s, s1, co, if hs[0] == co.p then 1 else 0)
    requires IsProto(s, co.p) ==> IsProto(s1, co.p) && !Begun(s1, co)
    ensures Begun(s1, co) ==> multiset(hs[1..])[co.p] == 0
    ensures !Begun(s1, co) ==> Early(s1, co) && OneSlot(s1, co, hs[1..])
    ensures Ordinary(s, co.p) && !Begun(s1, co) ==> Ordinary(s1, co.p) && Listed(s1.recs, co.p) <= Listed(s.recs, co.p)
  {
    FirstSlot(s, hs, co);
    if !Begun(s1, co) { EarlyBound(s1, co); }
    hide Told, Listed, Early;
  }

  /** The loop over a promise's handlers, the coroutine's own promise perhaps among them. */
  lemma {:induction false} EarlyDeliver(w: nat -> nat, s: State, hs: seq<nat>, v: Value, kind: Kind, co: Coro)
    requires CanDeliver(w, s, hs, v) && !v.Gen? && Early(s, co) && Once(s) && OneSlot(s, co, hs)
    requires Agrees(DeliverF(w, s, hs, v, Settle(kind)).recs, co.res)
    ensures Moves(s, DeliverF(w, s, hs, v, Settle(kind)), co, multiset(hs)[co.p])
    decreases Load(w, s.recs) + SlotCost(hs, w), 2 + |hs|
  {
    hide Early, Listed, Once, Advances, Agrees, Load, SlotCost;
    EarlyBound(s, co);
    if hs != [] {
      DeliverUnfolds(w, s, hs, v, Settle(kind));
      var s1 := DeliverOne(w, s, hs[0], v, Settle(kind));
      var out := DeliverF(w, s1, hs[1..], v, Settle(kind));
      FirstSlot(s, hs, co);
      OneKept(w, s, hs[0], v, Settle(kind));
      DeliverKept(w, s1, hs[1..], v, Settle(kind));
      AgreesBack(s1, out, co.res);
      OneAdvances(w, s, hs[0], v, Settle(kind));
      hide DeliverF, DeliverOne, Ok;
      EarlyOne(w, s, hs[0], v, kind, co);
      if IsProto(s, co.p) { assert KeptAt(s, s1, co.p) && !Begun(s, co); }
      NextSlot(s, s1, hs, co);
      if Begun(s1, co) {
        BegunDeliver(w, s1, hs[1..], v, kind, co);
      } else {
        OnceAdvances(s, s1);
        EarlyDeliver(w, s1, hs[1..], v, kind, co);
        MovesFrom(s, s1, out, co, multiset(hs[1..])[co.p], multiset(hs)[co.p]);
      }
    }
  }

  /** What the loop does after the coroutine's turn. */
  lemma BegunDeliver(w: nat -> nat, s: State, hs: seq<nat>, v: Value, kind: Kind, co: Coro)
    requires CanDeliver(w, s, hs, v) && !v.Gen? && Begun(s, co) && Told(s, co) && multiset(hs)[co.p] == 0
    requires Agrees(DeliverF(w, s, hs, v, Settle(kind)).recs, co.res)
    ensures Begun(DeliverF(w, s, hs, v, Settle(kind)), co) && Told(DeliverF(w, s, hs, v, Settle(kind)), co)
  {
    var out := DeliverF(w, s, hs, v, Settle(kind));
    DeliverAdvances(w, s, hs, v, Settle(kind));
    if Alive(s, co) { DeliverCarried(w, s, hs, v, kind, co); }
    hide DeliverF, Advances, Told, Alive;
    ToldStays(s, out, co);
  }
}
