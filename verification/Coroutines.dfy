/** What a coroutine does, as a pure function of outcomes. */
module Coroutines {
  import opened Values
  import opened Engine

  /** The outcome that each promise has or will have. */
  type Outcomes = nat -> (Value, Kind)

  /** A value as the coroutine's driver sees it: a promise stands for its outcome. */
  function Look(res: Outcomes, v: Value, kind: Kind): (Value, Kind) {
    if v.Prom? then res(v.id) else (v, kind)
  }

  /** Everything a coroutine does: what is sent to it or thrown into it, and how it settles. */
  datatype Story = Story(steps: seq<Resume>, v: Value, kind: Kind)

  function Then(r: Resume, st: Story): Story { st.(steps := [r] + st.steps) }

  function After(rs: seq<Resume>, st: Story): Story { st.(steps := rs + st.steps) }

  /** The story of a suspended generator that is resumed with an outcome. */
  function Solo(res: Outcomes, sc: Script, v: Value, kind: Kind): Story
    decreases sc
  {
    var r := if kind.Done? then Send(v) else Throw(v);
    match sc
    case Yield(_, _) => (
      var next := Continue(sc, r);
      match next
      case Yield(y, _) => var o := Look(res, y, kind); Then(r, Solo(res, next, o.0, o.1))
      case Return(x) => var o := Look(res, x, Done); Story([r], o.0, o.1)
      case Raise(e) => Story([r], Error(e), Failed)
    )
    case Return(x) =>
      if r.Send? then var o := Look(res, x, Done); Story([r], o.0, o.1)
      else Story([r], Error(ErrorOf(v)), Failed)
    case Raise(e) => Story([r], Error(e), Failed)
  }

  /** The story of a fresh generator: run to its first yield, then resumed with that value. */
  function Begin(res: Outcomes, sc: Script): Story {
    match sc
    case Yield(y, _) => var o := Look(res, y, Done); Solo(res, sc, o.0, o.1)
    case Return(_) => Solo(res, sc, Null, Done)
    case Raise(e) => Story([], Error(e), Failed)
  }

  // ---- A story, step by step ------------------------------------------------------------------

  /** The generator after some sends and throws. */
  function Played(sc: Script, rs: seq<Resume>): Script {
    if rs == [] then sc else Continue(Played(sc, rs[..|rs| - 1]), rs[|rs| - 1])
  }

  /** What the generator has handed out when it is suspended, or has ended before its first yield. */
  function Held(sc: Script): Value { if sc.Yield? then sc.v else Null }

  /** How the last promise ended that was yielded up to step `k`; DONE when there was none. */
  function Mood(res: Outcomes, sc: Script, rs: seq<Resume>, k: nat, first: Kind): Kind
    requires k <= |rs|
  {
    var y := Held(Played(sc, rs[..k]));
    if y.Prom? then res(y.id).1 else if k == 0 then first else Mood(res, sc, rs, k - 1, first)
  }

  /** Step `k` hands back what was yielded before it: the outcome of a promise, any other value itself;
      it is thrown exactly if the last promise that was yielded has failed. */
  ghost predicate Fair(res: Outcomes, sc: Script, rs: seq<Resume>, k: nat, first: Kind)
    requires k < |rs|
  {
    var y := Held(Played(sc, rs[..k]));
    var x := if y.Prom? then res(y.id).0 else y;
    rs[k] == if Mood(res, sc, rs, k, first) == Done then Send(x) else Throw(x)
  }

  /** The story ends as the generator does: with what it returns, the outcome of a promise that it returns,
      or the error that escapes from it. */
  ghost predicate Ends(res: Outcomes, sc: Script, st: Story) {
    match Played(sc, st.steps)
    case Return(x) => (st.v, st.kind) == if x.Prom? then res(x.id) else (x, Done)
    case Raise(e) => (st.v, st.kind) == (Error(e), Failed)
    case Yield(_, _) => false
  }

  lemma {:induction false} PlayedConcat(sc: Script, r: Resume, rs: seq<Resume>)
    ensures Played(sc, [r] + rs) == Played(Continue(sc, r), rs)
  {
    if rs == [] {
      assert [r] + rs == [r] && [r][..0] == [];
      assert Played(sc, [r]) == Continue(Played(sc, []), r);
    } else {
      var n := |rs| - 1;
      assert ([r] + rs)[..n + 1] == [r] + rs[..n];
      PlayedConcat(sc, r, rs[..n]);
    }
  }

  lemma {:induction false} MoodConcat(res: Outcomes, sc: Script, r: Resume, rs: seq<Resume>, k: nat, first: Kind)
    requires k <= |rs|
    ensures Mood(res, sc, [r] + rs, k + 1, first)
         == Mood(res, Continue(sc, r), rs, k, Mood(res, sc, [r] + rs, 0, first))
  {
    assert ([r] + rs)[..k + 1] == [r] + rs[..k];
    PlayedConcat(sc, r, rs[..k]);
    if k > 0 { MoodConcat(res, sc, r, rs, k - 1, first); }
  }

  /** One turn of the pure interpreter. */
  lemma SoloTurn(res: Outcomes, sc: Script, v: Value, kind: Kind)
    ensures var r := if kind.Done? then Send(v) else Throw(v);
            var next, st := Continue(sc, r), Solo(res, sc, v, kind);
            if sc.Yield? && next.Yield? then
              var o := Look(res, next.v, kind); st == Then(r, Solo(res, next, o.0, o.1))
            else st.steps == [r] && Ends(res, sc, st)
  {
    var r := if kind.Done? then Send(v) else Throw(v);
    PlayedConcat(sc, r, []);
  }

  lemma FairStart(res: Outcomes, sc: Script, rs: seq<Resume>, first: Kind)
    requires var o := Look(res, Held(sc), first); rs != [] && rs[0] == if o.1.Done? then Send(o.0) else Throw(o.0)
    ensures Fair(res, sc, rs, 0, first) && Mood(res, sc, rs, 0, first) == Look(res, Held(sc), first).1
  {
    assert rs[..0] == [];
  }

  /** The pure interpreter is fair at every step, and ends as the generator does. */
  lemma {:induction false} SoloFair(res: Outcomes, sc: Script, first: Kind)
    ensures var o := Look(res, Held(sc), first);
            var st := Solo(res, sc, o.0, o.1);
            Ends(res, sc, st) && forall k | 0 <= k < |st.steps| :: Fair(res, sc, st.steps, k, first)
    decreases sc
  {
    var o := Look(res, Held(sc), first);
    var st, r := Solo(res, sc, o.0, o.1), if o.1.Done? then Send(o.0) else Throw(o.0);
    var next := Continue(sc, r);
    SoloTurn(res, sc, o.0, o.1);
    FairStart(res, sc, st.steps, first);
    if sc.Yield? && next.Yield? {
      var o' := Look(res, next.v, o.1);
      var rest := Solo(res, next, o'.0, o'.1);
      SoloFair(res, next, o.1);
      PlayedConcat(sc, r, rest.steps);
      hide Solo, Fair, Played, Mood, Look;
      forall k | 0 < k < |st.steps| ensures Fair(res, sc, st.steps, k, first) {
        FairLater(res, sc, r, rest.steps, k - 1, first);
      }
    }
  }

  lemma FairLater(res: Outcomes, sc: Script, r: Resume, rs: seq<Resume>, k: nat, first: Kind)
    requires k < |rs| && Fair(res, Continue(sc, r), rs, k, Mood(res, sc, [r] + rs, 0, first))
    ensures Fair(res, sc, [r] + rs, k + 1, first)
  {
    assert ([r] + rs)[..k + 1] == [r] + rs[..k];
    PlayedConcat(sc, r, rs[..k]);
    MoodConcat(res, sc, r, rs, k, first);
  }

  /** The same from the start of a generator. */
  lemma BeginFair(res: Outcomes, sc: Script)
    ensures var st := Begin(res, sc);
            Ends(res, sc, st) && forall k | 0 <= k < |st.steps| :: Fair(res, sc, st.steps, k, Done)
  {
    if !sc.Raise? { SoloFair(res, sc, Done); }
  }

  function Sent(log: seq<Event>, g: nat): seq<Resume> {
    if log == [] then []
    else
      var e := log[|log| - 1];
      Sent(log[..|log| - 1], g) + if e.Resumed? && e.g == g then [e.r] else []
  }

  lemma SentMore(log: seq<Event>, e: Event, g: nat)
    ensures Sent(log + [e], g) == Sent(log, g) + if e.Resumed? && e.g == g then [e.r] else []
  {
    assert (log + [e])[..|log|] == log;
  }

  /** The records agree with `res`, and nothing has settled with a promise or a generator. */
  ghost predicate Agrees(recs: seq<Rec>, res: Outcomes) {
    forall q | 0 <= q < |recs| && Finished(recs[q]) :: AgreesAt(recs[q], q, res)
  }

  predicate AgreesAt(r: Rec, q: nat, res: Outcomes) {
    res(q) == (r.result, OutcomeKind(r)) && !r.result.Prom? && !r.result.Gen?
  }

  predicate Live(v: Value, ids: set<nat>, m: nat) { (v.Prom? ==> v.id in ids) && (v.Gen? ==> v.g < m) }

  /** The script names only promises of `ids` and the first `m` generators. */
  ghost predicate Names(sc: Script, ids: set<nat>, m: nat)
    decreases sc
  {
    match sc
    case Return(v) => Live(v, ids, m)
    case Raise(_) => true
    case Yield(v, next) => Live(v, ids, m) && forall r | r in next :: Names(next[r], ids, m)
  }

  ghost predicate InRecs(recs: seq<Rec>, ids: set<nat>) { forall q | q in ids :: q < |recs| }

  /** What `run` says about a coroutine whose story, from here on, is `st`. */
  ghost predicate Tells(res: Outcomes, gens: seq<Script>, log: seq<Event>, g: nat, ids: set<nat>, m: nat, run: Run,
      st: Story)
    requires g < |gens|
  {
    && g < |run.gens| && Names(run.gens[g], ids, m)
    && (forall j | 0 <= j < |gens| && j != g :: j < |run.gens| && run.gens[j] == gens[j])
    && match run
       case Settles(v, kind, _, log') => Story(Sent(log', g), v, kind) == After(Sent(log, g), st)
       case Suspends(q, gen, gens', log') =>
         && q in ids && (gen == None || gen == Some(g))
         && var rest := if gen.Some? then Solo(res, gens'[g], res(q).0, res(q).1) else Story([], res(q).0, res(q).1);
            After(Sent(log', g), rest) == After(Sent(log, g), st)
  }

  /** The same for the promises of `ids` alone. */
  ghost predicate AgreesOn(recs: seq<Rec>, ids: set<nat>, res: Outcomes) {
    forall q | q in ids && q < |recs| && Finished(recs[q]) :: AgreesAt(recs[q], q, res)
  }

  ghost predicate Scene(recs: seq<Rec>, gens: seq<Script>, g: nat, res: Outcomes, ids: set<nat>, m: nat) {
    && PlainResults(recs) && AgreesOn(recs, ids, res) && InRecs(recs, ids)
    && g < |gens| && m <= |gens| && Names(gens[g], ids, m)
  }

  lemma NamesContinue(sc: Script, r: Resume, ids: set<nat>, m: nat)
    requires Names(sc, ids, m)
    ensures Names(Continue(sc, r), ids, m) && Names(Rest(Continue(sc, r)), ids, m)
  {
  }

  /** One more resumption in front of the rest of a story. */
  lemma TellsMore(res: Outcomes, gens: seq<Script>, log: seq<Event>, g: nat, ids: set<nat>, m: nat,
                  sc: Script, r: Resume, run: Run, st: Story)
    requires g < |gens|
    requires Tells(res, gens[g := sc], log + [Resumed(g, r)], g, ids, m, run, st)
    ensures Tells(res, gens, log, g, ids, m, run, Then(r, st))
  {
    SentMore(log, Resumed(g, r), g);
    assert Sent(log, g) + [r] + st.steps == Sent(log, g) + ([r] + st.steps);
    assert After(Sent(log + [Resumed(g, r)], g), st) == After(Sent(log, g), Then(r, st));
    assert forall j | 0 <= j < |gens| && j != g :: gens[g := sc][j] == gens[j];
  }

  /** The generator has finished with `x`: the promise takes `x`, or waits for it. */
  lemma EndTells(recs: seq<Rec>, gens: seq<Script>, log: seq<Event>, g: nat, x: Value, kind: Kind,
                 res: Outcomes, ids: set<nat>, m: nat)
    requires Scene(recs, gens, g, res, ids, m) && Live(x, ids, m)
    ensures Tells(res, gens, log, g, ids, m, Watch(recs, gens, log, None, x, kind, true),
                  Story([], Look(res, x, kind).0, Look(res, x, kind).1))
  {
    if x.Prom? && Finished(recs[x.id]) {
      assert AgreesAt(recs[x.id], x.id, res);
      assert Watch(recs, gens, log, None, x, kind, true)
          == Watch(recs, gens, log, None, recs[x.id].result, OutcomeKind(recs[x.id]), true)
          == Settles(recs[x.id].result, OutcomeKind(recs[x.id]), gens, log);
    }
  }

  lemma {:induction false} FeedTells(recs: seq<Rec>, gens: seq<Script>, log: seq<Event>,
                                     g: nat, v: Value, kind: Kind, skip: bool,
                                     res: Outcomes, ids: set<nat>, m: nat)
    requires Scene(recs, gens, g, res, ids, m)
    ensures Tells(res, gens, log, g, ids, m, Feed(recs, gens, log, g, v, kind, skip), Solo(res, gens[g], v, kind))
    decreases gens[g], 0
  {
    var r := if kind.Done? then Send(v) else Throw(v);
    var sc := Continue(gens[g], r);
    var gens', log' := gens[g := Rest(sc)], log + [Resumed(g, r)];
    var run := Feed(recs, gens, log, g, v, kind, skip);
    NamesContinue(gens[g], r, ids, m);
    match sc
    case Yield(y, _) =>
      assert Live(y, ids, m);
      var o := Look(res, y, kind);
      WatchTells(recs, gens', log', g, y, kind, skip, res, ids, m);
      TellsMore(res, gens, log, g, ids, m, sc, r, run, Solo(res, sc, o.0, o.1));
    case Return(x) =>
      assert Live(x, ids, m);
      EndTells(recs, gens', log', g, x, Done, res, ids, m);
      TellsMore(res, gens, log, g, ids, m, sc, r, run, Story([], Look(res, x, Done).0, Look(res, x, Done).1));
    case Raise(e) =>
      assert Watch(recs, gens', log', None, Error(e), Failed, skip) == Settles(Error(e), Failed, gens', log');
      TellsMore(res, gens, log, g, ids, m, Rest(sc), r, run, Story([], Error(e), Failed));
  }

  lemma {:induction false} WatchTells(recs: seq<Rec>, gens: seq<Script>, log: seq<Event>,
                                      g: nat, y: Value, kind: Kind, skip: bool,
                                      res: Outcomes, ids: set<nat>, m: nat)
    requires Scene(recs, gens, g, res, ids, m) && Live(y, ids, m)
    ensures Tells(res, gens, log, g, ids, m,
                  if y.Gen? then Feed(recs, gens, log, g, y, kind, skip)
                    else Watch(recs, gens, log, Some(g), y, kind, skip),
                  Solo(res, gens[g], Look(res, y, kind).0, Look(res, y, kind).1))
    decreases gens[g], 1
  {
    if y.Prom? && Finished(recs[y.id]) {
      var q := recs[y.id];
      assert AgreesAt(q, y.id, res);
      assert Watch(recs, gens, log, Some(g), y, kind, skip)
          == Watch(recs, gens, log, Some(g), q.result, OutcomeKind(q), skip)
          == Feed(recs, gens, log, g, q.result, OutcomeKind(q), skip);
      FeedTells(recs, gens, log, g, q.result, OutcomeKind(q), skip, res, ids, m);
    } else if !y.Prom? {
      FeedTells(recs, gens, log, g, y, kind, skip, res, ids, m);
      assert !y.Gen? ==> Watch(recs, gens, log, Some(g), y, kind, skip) == Feed(recs, gens, log, g, y, kind, skip);
    }
  }

  // ---- The law that a yielded plain value comes straight back ---------------------------------

  /** The story the documentation describes: a plain value that is yielded is sent back. */
  function Documented(res: Outcomes, sc: Script, v: Value, kind: Kind): Story
    decreases sc
  {
    var r := if kind.Done? then Send(v) else Throw(v);
    match sc
    case Yield(_, _) => (
      var next := Continue(sc, r);
      match next
      case Yield(y, _) => var o := Look(res, y, Done); Then(r, Documented(res, next, o.0, o.1))
      case Return(x) => var o := Look(res, x, Done); Story([r], o.0, o.1)
      case Raise(e) => Story([r], Error(e), Failed)
    )
    case _ => Solo(res, sc, v, kind)
  }

  /** No plain value is yielded while the last awaited outcome is a failure. */
  predicate Clean(res: Outcomes, sc: Script, v: Value, kind: Kind)
    decreases sc
  {
    sc.Yield? ==>
      var next := Continue(sc, if kind.Done? then Send(v) else Throw(v));
      next.Yield? ==>
        (next.v.Prom? || kind.Done?)
        && var o := Look(res, next.v, Done); Clean(res, next, o.0, o.1)
  }

  /** The result type is not reset when a caught failure is followed by a plain yield, so the law
      holds exactly for the runs in which that does not happen. */
  lemma {:induction false} DocumentedExactly(res: Outcomes, sc: Script, v: Value, kind: Kind)
    ensures Solo(res, sc, v, kind) == Documented(res, sc, v, kind) <==> Clean(res, sc, v, kind)
    decreases sc
  {
    if sc.Yield? {
      var r := if kind.Done? then Send(v) else Throw(v);
      var next := Continue(sc, r);
      if next.Yield? {
        var o := Look(res, next.v, kind);
        var d := Look(res, next.v, Done);
        DocumentedExactly(res, next, d.0, d.1);
        var actual, ideal := Solo(res, next, o.0, o.1), Documented(res, next, d.0, d.1);
        assert Then(r, actual).steps[1..] == actual.steps && Then(r, ideal).steps[1..] == ideal.steps;
        if !next.v.Prom? && kind.Failed? {
          assert actual.steps[0] == Throw(next.v) && ideal.steps[0] == Send(next.v);
        }
      }
    }
  }

  /** Awaits promise 0, catches its failure, and yields 5: the 5 is thrown back. */
  function Catcher(): Script {
    Yield(Prom(0), imap[Throw(Error(1)) := Yield(Plain(5), imap[Send(Plain(5)) := Return(Plain(7))])])
  }

  lemma CaughtThenPlain()
    ensures var res: Outcomes := (q: nat) => (Error(1), Failed);
            Begin(res, Catcher()).steps == [Throw(Error(1)), Throw(Plain(5))]
            && Begin(res, Catcher()).kind == Failed
            && !Clean(res, Catcher(), Error(1), Failed)
  {
    var res: Outcomes := (q: nat) => (Error(1), Failed);
    var inner := Yield(Plain(5), imap[Send(Plain(5)) := Return(Plain(7))]);
    assert Continue(Catcher(), Throw(Error(1))) == inner;
    assert Continue(inner, Throw(Plain(5))) == Raise(NOT_THROWABLE);
    assert Solo(res, inner, Plain(5), Failed) == Story([Throw(Plain(5))], Error(NOT_THROWABLE), Failed);
    assert Begin(res, Catcher()) == Solo(res, Catcher(), Error(1), Failed);
  }
}
