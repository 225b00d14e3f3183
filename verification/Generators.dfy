/** Generators that callbacks return: run, or results. */
module Generators {
  import opened Values
  import opened Engine
  import opened Cloning
  import opened Delivery
  import opened Permanence
  import opened Firing
  import opened Coroutines
  import opened Agreement
  import opened Births
  import opened Activations

  // ---- Which generators are run ---------------------------------------------------------------

  /** The function in the slot is a generator function, or internal code, and has made a generator. */
  predicate Makes(cb: Callback, v: Value, sc: Script) {
    match cb
    case Unset => false
    case Php(required, args, accepts, generator, body) =>
      generator && required <= 1 && (args > 0 ==> accepts(v)) && body(v) == Fresh(sc)
    case Internal(action) => action(v) == Fresh(sc)
  }

  /** Promise `co.p` has run generator `co.g` with script `sc` as a pure interpreter does: it has settled as
      the script says, after the sends and throws that the script asks for, or it has done the first of
      these and waits for a promise that the script names. */
  ghost predicate Runs(s: State, out: State, co: Coro, sc: Script) {
    && co.p < |out.recs| && |s.log| <= |out.log|
    && var r, st := out.recs[co.p], Begin(co.res, sc);
       if r.flags.done || r.flags.failed then
         && SettledAs(out, co.p, st.v, st.kind == Done) && r.result != Gen(co.g)
         && exists n :: |s.log| <= n <= |out.log| && Sent(out.log[..n], co.g) == Sent(s.log, co.g) + st.steps
       else
         && r.await.Some? && r.await.value in co.ids && (r.gen == None || r.gen == Some(co.g)) && co.g < |out.gens|
         && var o := co.res(r.await.value);
            After(Sent(out.log, co.g), if r.gen.Some? then Solo(co.res, out.gens[co.g], o.0, o.1)
                                       else Story([], o.0, o.1))
            == After(Sent(s.log, co.g), st)
  }

  /** A generator function is run as a coroutine, and its generator never becomes the result. */
  lemma GeneratorRuns(w: nat -> nat, s: State, data: Value, sig: Signal, co: Coro, sc: Script)
    requires CanResolve(w, s, co.p, data) && !Fired(s.recs[co.p])
    requires Makes(Asked(s.recs[co.p], sig), data, sc) && co.g == |s.gens|
    requires AgreesOn(s.recs, co.ids, co.res) && InRecs(s.recs, co.ids) && co.m <= |s.gens| && Names(sc, co.ids, co.m)
    ensures Runs(s, ResolveF(w, s, co.p, data, sig), co, sc)
  {
    OkDrives(w, s, co.p);
    var out, run := ResolveF(w, s, co.p, data, sig), Drive(s, co.p, data, sig);
    var e := Called(co.p, sig, data, Some(Creation(co.g, sc)));
    assert RecOk(w, s, co.p);
    MadeRun(s, data, sig, co, sc);
    ScriptOpens(s, e, co, sc);
    RunShows(w, s, co.p, data, sig);
    hide ResolveF, Drive, Watch, Ok, RecOk, AgreesOn;
    if run.Settles? {
      OwnGenerator(s, e, run, co, sc);
      SettledRuns(s, out, run, co, sc);
    } else {
      ResolveUnfolds(w, s, co.p, data, sig);
      WaitingFields(s, co.p, run, co.p);
    }
  }

  lemma SettledRuns(s: State, out: State, run: Run, co: Coro, sc: Script)
    requires run.Settles? && co.g < |run.gens| && Opens(s.log, run, co, sc) && s.log <= run.log <= out.log
    requires SettledAs(out, co.p, run.v, run.kind == Done) && run.v != Gen(co.g)
    ensures Runs(s, out, co, sc)
  {
    assert out.log[..|run.log|] == run.log;
    assert Sent(out.log[..|run.log|], co.g) == Sent(s.log, co.g) + Begin(co.res, sc).steps;
  }

  lemma MadeRun(s: State, data: Value, sig: Signal, co: Coro, sc: Script)
    requires CanDrive(s, co.p) && PlainResults(s.recs) && !data.Prom? && co.g == |s.gens|
    requires s.recs[co.p].await.None? && s.recs[co.p].gen.None? && Makes(Asked(s.recs[co.p], sig), data, sc)
    ensures Drive(s, co.p, data, sig)
         == Watch(s.recs, s.gens + [sc], s.log + [Called(co.p, sig, data, Some(Creation(co.g, sc)))], None, Gen(co.g),
                  Done, false)
    ensures s.log <= Drive(s, co.p, data, sig).log
  {
    DriveLog(s, co.p, data, sig);
  }

  // ---- The coroutine's own generator is no result ---------------------------------------------

  predicate Older(v: Value, m: nat) { v.Gen? ==> v.g < m }

  lemma {:induction false} SoloOlder(res: Outcomes, ids: set<nat>, m: nat, sc: Script, v: Value, kind: Kind)
    requires Names(sc, ids, m) && forall q | q in ids :: !res(q).0.Gen?
    ensures Older(Solo(res, sc, v, kind).v, m)
    decreases sc
  {
    var r := if kind.Done? then Send(v) else Throw(v);
    if sc.Yield? {
      var next := Continue(sc, r);
      NamesContinue(sc, r, ids, m);
      if next.Yield? {
        var o := Look(res, next.v, kind);
        SoloOlder(res, ids, m, next, o.0, o.1);
      }
    }
  }

  /** Give the promises that are still pending another outcome: the run is the same, and so is its result. */
  lemma OwnGenerator(s: State, e: Event, run: Run, co: Coro, sc: Script)
    requires PlainResults(s.recs) && AgreesOn(s.recs, co.ids, co.res) && InRecs(s.recs, co.ids) && !e.Resumed?
    requires co.g == |s.gens| && co.m <= |s.gens| && Names(sc, co.ids, co.m)
    requires run == Watch(s.recs, s.gens + [sc], s.log + [e], None, Gen(co.g), Done, false) && run.Settles?
    ensures run.v != Gen(co.g)
  {
    var res: Outcomes :=
      (q: nat) =>
        if q < |s.recs| && Finished(s.recs[q]) then (s.recs[q].result, OutcomeKind(s.recs[q])) else (Null, Done);
    var co' := co.(res := res);
    forall q | q in co.ids ensures !res(q).0.Gen? {
      if q < |s.recs| && Finished(s.recs[q]) { assert AgreesAt(s.recs[q], q, co.res); }
    }
    forall q | q in co.ids && q < |s.recs| && Finished(s.recs[q]) ensures AgreesAt(s.recs[q], q, res) {
      assert AgreesAt(s.recs[q], q, co.res);
    }
    ScriptOpens(s, e, co', sc);
    assert run.v == Begin(res, sc).v;
    match sc
    case Yield(y, _) =>
      var o := Look(res, y, Done);
      SoloOlder(res, co.ids, co.m, sc, o.0, o.1);
    case Return(_) => SoloOlder(res, co.ids, co.m, sc, Null, Done);
    case Raise(_) =>
  }

  // ---- Which generators are results -----------------------------------------------------------

  /** A function that is no generator function has returned a generator, new or not. */
  predicate HandsOver(cb: Callback, v: Value, n: nat, g: nat, made: Option<Creation>) {
    cb.Php? && !cb.generator && cb.required <= 1 && (cb.args > 0 ==> cb.accepts(v))
    && match cb.body(v)
       case Returns(x) => x == Gen(g) && g < n && made == None
       case Raises(_) => false
       case Fresh(sc) => g == n && made == Some(Creation(n, sc))
  }

  /** That generator is the result: before anything is delivered it is not resumed. */
  lemma GeneratorKept(w: nat -> nat, s: State, p: nat, data: Value, sig: Signal, g: nat, made: Option<Creation>)
    requires CanResolve(w, s, p, data) && !Fired(s.recs[p])
    requires HandsOver(Asked(s.recs[p], sig), data, |s.gens|, g, made)
    ensures var out := ResolveF(w, s, p, data, sig);
            && SettledAs(out, p, Gen(g), true)
            && s.log + [Called(p, sig, data, made)] <= out.log
            && (s.recs[p].handlers == [] ==>
                  && out.log == s.log + [Called(p, sig, data, made)]
                  && out.gens == s.gens + if made.Some? then [made.value.script] else [])
  {
    OkDrives(w, s, p);
    assert RecOk(w, s, p);
    KeptRun(s, p, data, sig, g, made);
    RunShows(w, s, p, data, sig);
    ResolveUnfolds(w, s, p, data, sig);
    hide Ok, RecOk, Drive, ResolveF;
  }

  lemma KeptRun(s: State, p: nat, data: Value, sig: Signal, g: nat, made: Option<Creation>)
    requires CanDrive(s, p) && PlainResults(s.recs) && !data.Prom? && s.recs[p].await.None? && s.recs[p].gen.None?
    requires HandsOver(Asked(s.recs[p], sig), data, |s.gens|, g, made)
    ensures Drive(s, p, data, sig) == Settles(Gen(g), Done, s.gens + if made.Some? then [made.value.script] else [],
                                              s.log + [Called(p, sig, data, made)])
  {
    var cb, log := Pick(s.recs[p], sig, data), s.log + [Called(p, sig, data, made)];
    var gens := s.gens + if made.Some? then [made.value.script] else [];
    assert cb == Asked(s.recs[p], sig) && Skips(cb);
    assert made.None? ==> gens == s.gens;
    assert Watch(s.recs, gens, log, None, Gen(g), Done, true) == Settles(Gen(g), Done, gens, log);
  }
}
