/** What invoking a sequence does, over whole runs. */
module Sequences {
  import opened Values
  import opened Engine
  import opened Cloning
  import opened Delivery
  import opened Graph
  import opened Permanence
  import opened References
  import opened Operations
  import opened Runs
  import opened Firing
  import opened Handlers
  import opened Concatenation

  // ---- The shape of a clone -------------------------------------------------------------------

  /** `x` stands in the clone for handler `h` of the prototype: a pending copy of a nested
      prototype, or the external handler itself. */
  ghost predicate CopyOf(s: State, h: nat, out: State, x: nat) {
    if IsProto(s, h) then
      && |s.recs| <= x < |out.recs| && h < |s.recs|
      && out.recs[x].done == s.recs[h].done && out.recs[x].fail == s.recs[h].fail
      && !out.recs[x].flags.proto && !Fired(out.recs[x])
    else x == h
  }

  /** Slot by slot, and each slot of a prototype has a copy of its own. */
  ghost predicate Copies(s: State, hs: seq<nat>, out: State, xs: seq<nat>) {
    && |xs| == |hs| && (forall j | 0 <= j < |hs| :: CopyOf(s, hs[j], out, xs[j]))
    && forall i, j | 0 <= i < j < |hs| && IsProto(s, hs[i]) && IsProto(s, hs[j]) :: xs[i] < xs[j]
  }

  /** The clone takes over the callbacks and the flags, but neither the canceler nor anything else. */
  ghost predicate Copied(r: Rec, r': Rec) {
    && r'.done == r.done && r'.fail == r.fail && r'.canceler.Unset? && r'.flags == r.flags.(proto := false)
    && r'.await.None? && r'.gen.None? && r'.result == Null && r'.name.None?
  }

  /** The clone `c` has the callbacks of `t` and a copy of each handler, in order; `t` keeps exactly
      its prototype handlers, in order. */
  ghost predicate CloneOf(s: State, t: nat, out: State, c: nat) {
    && t < |s.recs| && c < |out.recs| && t < |out.recs|
    && Copied(s.recs[t], out.recs[c])
    && Copies(s, s.recs[t].handlers, out, out.recs[c].handlers)
    && out.recs[t].handlers == ProtoSlots(s, s.recs[t].handlers)
  }

  /** The records of `s` keep in `s1` what makes them prototypes and what they call. */
  ghost predicate SameBase(s: State, s1: State) {
    |s.recs| <= |s1.recs| && forall i | 0 <= i < |s.recs| :: SameBaseAt(s, s1, i)
  }

  ghost predicate SameBaseAt(s: State, s1: State, i: nat)
    requires i < |s.recs| <= |s1.recs|
  {
    var r, r1 := s.recs[i], s1.recs[i];
    r1.flags == r.flags && r1.done == r.done && r1.fail == r.fail && Fired(r1) == Fired(r)
  }

  lemma FrameBase(w: nat -> nat, s: State, s': State, b: nat, c: nat)
    requires Frame(w, s, s', b, c)
    ensures SameBase(s, s')
  {
    forall i | 0 <= i < |s.recs| ensures SameBaseAt(s, s', i) { assert FrameAt(w, s, s', i, b, c); }
  }

  ghost predicate InRange(s: State, hs: seq<nat>) { forall j | 0 <= j < |hs| :: hs[j] < |s.recs| }

  lemma CopiesLater(s: State, s1: State, hs: seq<nat>, out: State, xs: seq<nat>)
    requires SameBase(s, s1) && InRange(s, hs) && Copies(s1, hs, out, xs)
    ensures Copies(s, hs, out, xs) && ProtoSlots(s1, hs) == ProtoSlots(s, hs)
  {
    forall j | 0 <= j < |hs|
      ensures CopyOf(s, hs[j], out, xs[j]) && IsProto(s, hs[j]) == IsProto(s1, hs[j])
    {
      assert CopyOf(s1, hs[j], out, xs[j]) && SameBaseAt(s, s1, hs[j]);
    }
    ProtoSlotsSame(s, s1, hs);
  }

  /** The slots of `t` from `k` on, in `s`, have become the slots `xs` added to `c` in `out`. */
  ghost predicate ShapeOf(s: State, t: nat, c: nat, k: nat, out: State, xs: seq<nat>) {
    && t < |s.recs| <= |out.recs| && c < |s.recs| && k <= |s.recs[t].handlers|
    && out.recs[c].handlers == s.recs[c].handlers + xs
    && Copies(s, s.recs[t].handlers[k..], out, xs)
    && out.recs[t].handlers == s.recs[t].handlers[..k] + ProtoSlots(s, s.recs[t].handlers[k..])
  }

  lemma {:induction false} SlotsShape(w: nat -> nat, s: State, t: nat, c: nat, k: nat) returns (xs: seq<nat>)
    requires Cloneable(w, s, t, c, k)
    ensures ShapeOf(s, t, c, k, CloneSlots(w, s, t, c, k), xs)
    decreases w(t), |s.recs[t].handlers| - k
  {
    var hs := s.recs[t].handlers;
    var out := CloneSlots(w, s, t, c, k);
    if k == |hs| {
      xs := [];
    } else {
      SlotLighter(w, s, t, k);
      hide Ok, MoveSlot;
      if IsProto(s, hs[k]) {
        var s1 := CloneF(w, s, hs[k]);
        var s2 := s1.(recs := PushSlot(s1.recs, c, |s.recs|));
        NestedOk(w, s, t, c, k, s1, s2);
        hide CloneSlots, CloneF, ShapeOf;
        var ys := SlotsShape(w, s2, t, c, k + 1);
        NestedSlots(w, s, t, c, k, s1, s2, ys);
        xs := [|s.recs|] + ys;
      } else {
        var s2 := s.(recs := MoveSlot(s.recs, t, c, k));
        MoveOk(w, s, t, c, k, s2);
        hide CloneSlots, CloneF, ShapeOf;
        var ys := SlotsShape(w, s2, t, c, k);
        MovedSlots(w, s, t, c, k, s2, ys);
        xs := [hs[k]] + ys;
      }
    }
  }

  lemma NestedSlots(w: nat -> nat, s: State, t: nat, c: nat, k: nat, s1: State, s2: State, ys: seq<nat>)
    requires Cloneable(w, s, t, c, k) && k < |s.recs[t].handlers| && IsProto(s, s.recs[t].handlers[k])
    requires s1 == CloneF(w, s, s.recs[t].handlers[k]) && c < |s1.recs|
    requires s2 == s1.(recs := PushSlot(s1.recs, c, |s.recs|)) && Frame(w, s, s2, w(t), c)
    requires Cloneable(w, s2, t, c, k + 1) && ShapeOf(s2, t, c, k + 1, CloneSlots(w, s2, t, c, k + 1), ys)
    ensures ShapeOf(s, t, c, k, CloneSlots(w, s, t, c, k), [|s.recs|] + ys)
  {
    var h := s.recs[t].handlers[k];
    var out := CloneSlots(w, s2, t, c, k + 1);
    NestedUnfolds(w, s, t, c, k, s2);
    CloneCallbacks(w, s, h);
    assert InRange(s, s.recs[t].handlers) by { assert RecOk(w, s, t); }
    hide Ok, RecOk, Load, ShapeOf, CloneSlots;
    assert FrameAt(w, s, s1, c, w(h), |s.recs|);
    NestedFacts(w, s, h, w(t), c, s1, s2, out);
    NestedShape(s, t, c, k, s2, out, ys);
  }

  lemma MovedSlots(w: nat -> nat, s: State, t: nat, c: nat, k: nat, s2: State, ys: seq<nat>)
    requires Cloneable(w, s, t, c, k) && k < |s.recs[t].handlers| && !IsProto(s, s.recs[t].handlers[k])
    requires s.recs[t].handlers[k] < |s.recs| && s2 == s.(recs := MoveSlot(s.recs, t, c, k))
    requires Frame(w, s, s2, w(t), c)
    requires Cloneable(w, s2, t, c, k) && ShapeOf(s2, t, c, k, CloneSlots(w, s2, t, c, k), ys)
    ensures ShapeOf(s, t, c, k, CloneSlots(w, s, t, c, k), [s.recs[t].handlers[k]] + ys)
  {
    MovedUnfolds(w, s, t, c, k, s2);
    MovedHandlers(s, t, c, k);
    assert InRange(s, s.recs[t].handlers) by { assert RecOk(w, s, t); }
    hide Ok, RecOk, Load, ShapeOf, CloneSlots, MoveSlot;
    FrameBase(w, s, s2, w(t), c);
    MovedShape(s, t, c, k, s2, CloneSlots(w, s2, t, c, k), ys);
  }

  lemma MovedHandlers(s: State, t: nat, c: nat, k: nat)
    requires t < |s.recs| && c < |s.recs| && c != t && k < |s.recs[t].handlers| && s.recs[t].handlers[k] < |s.recs|
    ensures var recs := MoveSlot(s.recs, t, c, k);
            recs[c].handlers == s.recs[c].handlers + [s.recs[t].handlers[k]]
            && recs[t].handlers == s.recs[t].handlers[..k] + s.recs[t].handlers[k + 1..]
  {
  }

  lemma NestedFacts(w: nat -> nat, s: State, h: nat, b: nat, c: nat, s1: State, s2: State, out: State)
    requires c < |s.recs| < |s1.recs| && IsProto(s, h) && FrameAt(w, s, s1, c, w(h), |s.recs|) && !s.recs[c].flags.proto
    requires var r := s1.recs[|s.recs|];
             r.done == s.recs[h].done && r.fail == s.recs[h].fail && !r.flags.proto && !Fired(r)
    requires s2 == s1.(recs := PushSlot(s1.recs, c, |s.recs|))
    requires Frame(w, s, s2, b, c) && Frame(w, s2, out, b, c)
    ensures SameBase(s, s2) && s2.recs[c].handlers == s.recs[c].handlers + [|s.recs|]
    ensures CopyOf(s, h, out, |s.recs|)
  {
    FrameBase(w, s, s2, b, c);
    FrameBase(w, s2, out, b, c);
    assert SameBaseAt(s2, out, |s.recs|);
  }

  lemma NestedShape(s: State, t: nat, c: nat, k: nat, s2: State, out: State, ys: seq<nat>)
    requires t < |s.recs| && c < |s.recs| && InRange(s, s.recs[t].handlers) && SameBase(s, s2)
    requires k < |s.recs[t].handlers| && IsProto(s, s.recs[t].handlers[k])
    requires s2.recs[t].handlers == s.recs[t].handlers && s2.recs[c].handlers == s.recs[c].handlers + [|s.recs|]
    requires ShapeOf(s2, t, c, k + 1, out, ys) && CopyOf(s, s.recs[t].handlers[k], out, |s.recs|)
             && |s.recs| < |s2.recs|
    ensures ShapeOf(s, t, c, k, out, [|s.recs|] + ys)
  {
    var hs, xs := s.recs[t].handlers, [|s.recs|] + ys;
    forall j | 0 <= j < |ys| && IsProto(s, hs[k + 1..][j]) ensures |s.recs| < ys[j] {
      assert CopyOf(s2, hs[k + 1..][j], out, ys[j]) && SameBaseAt(s, s2, hs[k + 1..][j]);
    }
    CopiesLater(s, s2, hs[k + 1..], out, ys);
    ShapeStep(s, hs, k, out, |s.recs|, ys);
    Regroup(hs, k, ProtoSlots(s, hs[k + 1..]));
    Assoc(s.recs[c].handlers, [|s.recs|], ys);
  }

  lemma MovedShape(s: State, t: nat, c: nat, k: nat, s2: State, out: State, ys: seq<nat>)
    requires t < |s.recs| && c < |s.recs| && InRange(s, s.recs[t].handlers) && SameBase(s, s2)
    requires k < |s.recs[t].handlers| && !IsProto(s, s.recs[t].handlers[k])
    requires s2.recs[t].handlers == s.recs[t].handlers[..k] + s.recs[t].handlers[k + 1..]
    requires s2.recs[c].handlers == s.recs[c].handlers + [s.recs[t].handlers[k]]
    requires ShapeOf(s2, t, c, k, out, ys)
    ensures ShapeOf(s, t, c, k, out, [s.recs[t].handlers[k]] + ys)
  {
    var hs, hs2 := s.recs[t].handlers, s2.recs[t].handlers;
    assert hs2[k..] == hs[k + 1..] && hs2[..k] == hs[..k];
    CopiesLater(s, s2, hs[k + 1..], out, ys);
    ShapeStep(s, hs, k, out, hs[k], ys);
    assert [] + ProtoSlots(s, hs[k + 1..]) == ProtoSlots(s, hs[k + 1..]);
    Assoc(s.recs[c].handlers, [hs[k]], ys);
  }

  lemma Regroup(hs: seq<nat>, k: nat, rest: seq<nat>)
    requires k < |hs|
    ensures hs[..k + 1] + rest == hs[..k] + ([hs[k]] + rest)
  {
  }

  lemma ShapeStep(s: State, hs: seq<nat>, k: nat, out: State, x: nat, ys: seq<nat>)
    requires k < |hs| && CopyOf(s, hs[k], out, x) && Copies(s, hs[k + 1..], out, ys)
    requires IsProto(s, hs[k]) ==> forall j | 0 <= j < |ys| && IsProto(s, hs[k + 1..][j]) :: x < ys[j]
    ensures Copies(s, hs[k..], out, [x] + ys)
    ensures ProtoSlots(s, hs[k..]) == (if IsProto(s, hs[k]) then [hs[k]] else []) + ProtoSlots(s, hs[k + 1..])
  {
    assert hs[k..][1..] == hs[k + 1..];
    forall j | 0 <= j < |hs[k..]| ensures CopyOf(s, hs[k..][j], out, ([x] + ys)[j]) {
      if j > 0 { assert CopyOf(s, hs[k + 1..][j - 1], out, ys[j - 1]); }
    }
    forall i, j | 0 <= i < j < |hs[k..]| && IsProto(s, hs[k..][i]) && IsProto(s, hs[k..][j])
      ensures ([x] + ys)[i] < ([x] + ys)[j]
    {
      assert hs[k..][j] == hs[k + 1..][j - 1];
      if i > 0 { assert hs[k..][i] == hs[k + 1..][i - 1]; }
    }
  }

  lemma CloneCallbacks(w: nat -> nat, s: State, t: nat)
    requires Ok(w, s) && IsProto(s, t)
    ensures Copied(s.recs[t], CloneF(w, s, t).recs[|s.recs|])
  {
    var s1 := s.(recs := s.recs + [Blank(s.recs[t])]);
    NewOk(w, s, t);
    var s2 := CloneSlots(w, s1, t, |s.recs|, 0);
    assert FrameAt(w, s1, s2, |s.recs|, w(t), |s.recs|);
  }

  /** Cloning copies the callbacks and every handler in order, and strips the prototype of its
      external handlers only. */
  lemma CloneShape(w: nat -> nat, s: State, t: nat)
    requires Ok(w, s) && IsProto(s, t)
    ensures CloneOf(s, t, CloneF(w, s, t), |s.recs|)
  {
    var s1, hs: seq<nat> := s.(recs := s.recs + [Blank(s.recs[t])]), s.recs[t].handlers;
    CloneUnfolds(w, s, t);
    CloneCallbacks(w, s, t);
    assert InRange(s, hs) by { assert RecOk(w, s, t); }
    var out := CloneSlots(w, s1, t, |s.recs|, 0);
    assert hs == [] ==> out == s1;
    hide Ok, Load, CloneF, CloneSlots, ShapeOf;
    var xs := SlotsShape(w, s1, t, |s.recs|, 0);
    ShapeCleaned(s, t, s1, out, CloneF(w, s, t), xs);
  }

  lemma ShapeCleaned(s: State, t: nat, s1: State, mid: State, out: State, xs: seq<nat>)
    requires t < |s.recs| && InRange(s, s.recs[t].handlers) && s1 == s.(recs := s.recs + [Blank(s.recs[t])])
    requires ShapeOf(s1, t, |s.recs|, 0, mid, xs) && (out == mid || out == TryClean(mid, t))
    requires Copied(s.recs[t], out.recs[|s.recs|])
    ensures CloneOf(s, t, out, |s.recs|)
  {
    var hs := s.recs[t].handlers;
    assert s1.recs[t].handlers[0..] == hs && [] + ProtoSlots(s1, hs) == ProtoSlots(s1, hs);
    assert mid.recs[|s.recs|].handlers == xs && mid.recs[t].handlers == ProtoSlots(s1, hs);
    forall i | 0 <= i < |s.recs| ensures SameBaseAt(s, s1, i) { }
    hide Copies;
    CopiesLater(s, s1, hs, mid, xs);
    CopiesCleaned(s, hs, mid, t, xs);
  }

  lemma CopiesCleaned(s: State, hs: seq<nat>, out: State, t: nat, xs: seq<nat>)
    requires t < |out.recs| && Copies(s, hs, out, xs)
    ensures Copies(s, hs, TryClean(out, t), xs)
  {
    forall j | 0 <= j < |hs| ensures CopyOf(s, hs[j], TryClean(out, t), xs[j]) { assert CopyOf(s, hs[j], out, xs[j]); }
  }

  // ---- Who waits for the sequence -------------------------------------------------------------

  /** Cloning a prototype that `x` does not wait for leaves `x`'s await link alone. */
  lemma {:induction false} CloneAwait(w: nat -> nat, s: State, t: nat, x: nat, q: nat)
    requires Ok(w, s) && IsProto(s, t) && x < |s.recs| && s.recs[x].await == Some(q)
    requires q < |s.recs| && (IsProto(s, q) ==> w(q) > w(t))
    ensures CloneF(w, s, t).recs[x].await == Some(q)
    decreases w(t), |s.recs[t].handlers| + 1
  {
    CloneUnfolds(w, s, t);
    SlotsAwait(w, s.(recs := s.recs + [Blank(s.recs[t])]), t, |s.recs|, 0, x, q);
  }

  lemma {:induction false} SlotsAwait(w: nat -> nat, s: State, t: nat, c: nat, k: nat, x: nat, q: nat)
    requires Cloneable(w, s, t, c, k) && x < |s.recs| && s.recs[x].await == Some(q)
    requires q < |s.recs| && (IsProto(s, q) ==> w(q) > w(t))
    ensures CloneSlots(w, s, t, c, k).recs[x].await == Some(q)
    decreases w(t), |s.recs[t].handlers| - k
  {
    var hs := s.recs[t].handlers;
    hide Ok, MoveSlot;
    if k < |hs| {
      SlotLighter(w, s, t, k);
      if IsProto(s, hs[k]) {
        var s1 := CloneF(w, s, hs[k]);
        var s2 := s1.(recs := PushSlot(s1.recs, c, |s.recs|));
        NestedOk(w, s, t, c, k, s1, s2);
        FrameBase(w, s, s2, w(t), c);
        assert SameBaseAt(s, s2, q);
        CloneAwait(w, s, hs[k], x, q);
        SlotsAwait(w, s2, t, c, k + 1, x, q);
      } else {
        var s2 := s.(recs := MoveSlot(s.recs, t, c, k));
        MoveOk(w, s, t, c, k, s2);
        MovedAwait(s, t, c, k, x);
        FrameBase(w, s, s2, w(t), c);
        assert SameBaseAt(s, s2, q);
        SlotsAwait(w, s2, t, c, k, x, q);
      }
    }
  }

  lemma MovedAwait(s: State, t: nat, c: nat, k: nat, x: nat)
    requires t < |s.recs| && c < |s.recs| && c != t && k < |s.recs[t].handlers| && s.recs[t].handlers[k] < |s.recs|
    requires x < |s.recs|
    ensures MoveSlot(s.recs, t, c, k)[x].await
         == if x == s.recs[t].handlers[k] && s.recs[x].await == Some(t) then Some(c) else s.recs[x].await
  {
  }

  /** Whoever waits for the sequence waits for its clone instead. */
  lemma {:induction false} SlotsRelink(w: nat -> nat, s: State, t: nat, c: nat, k: nat, x: nat)
    requires Cloneable(w, s, t, c, k) && x < |s.recs| && !s.recs[x].flags.proto
    requires s.recs[x].await == Some(t) && x in s.recs[t].handlers[k..]
    ensures CloneSlots(w, s, t, c, k).recs[x].await == Some(c)
    decreases w(t), |s.recs[t].handlers| - k
  {
    var hs := s.recs[t].handlers;
    hide Ok, MoveSlot;
    SlotLighter(w, s, t, k);
    assert hs[k..] == [hs[k]] + hs[k + 1..];
    if IsProto(s, hs[k]) {
      var s1 := CloneF(w, s, hs[k]);
      var s2 := s1.(recs := PushSlot(s1.recs, c, |s.recs|));
      NestedOk(w, s, t, c, k, s1, s2);
      CloneAwait(w, s, hs[k], x, t);
      FrameBase(w, s, s2, w(t), c);
      assert SameBaseAt(s, s2, x);
      SlotsRelink(w, s2, t, c, k + 1, x);
    } else {
      var s2 := s.(recs := MoveSlot(s.recs, t, c, k));
      MoveOk(w, s, t, c, k, s2);
      MovedAwait(s, t, c, k, x);
      FrameBase(w, s, s2, w(t), c);
      assert SameBaseAt(s, s2, x) && SameBaseAt(s, s2, c);
      if x == hs[k] { SlotsAwait(w, s2, t, c, k, x, c); } else { SlotsRelink(w, s2, t, c, k, x); }
    }
  }

  lemma CloneRelinks(w: nat -> nat, s: State, t: nat, x: nat)
    requires Ok(w, s) && IsProto(s, t) && x < |s.recs| && !s.recs[x].flags.proto
    requires s.recs[x].await == Some(t) && x in s.recs[t].handlers
    ensures CloneF(w, s, t).recs[x].await == Some(|s.recs|)
  {
    CloneUnfolds(w, s, t);
    assert s.recs[t].handlers[0..] == s.recs[t].handlers;
    SlotsRelink(w, s.(recs := s.recs + [Blank(s.recs[t])]), t, |s.recs|, 0, x);
  }

  // ---- One invocation -------------------------------------------------------------------------

  /** Slot `i` of the clone that invoking `t` in state `s` makes. */
  ghost function CopySlot(w: nat -> nat, s: State, t: nat, i: nat): nat
    requires Ok(w, s) && IsProto(s, t) && i < |s.recs[t].handlers|
  {
    CloneShape(w, s, t);
    CloneF(w, s, t).recs[|s.recs|].handlers[i]
  }

  /** The invocation of `t` in `s` copies slot `i` of `t` to the clone, and in `out` the copy has fired if
      the clone has settled, and is otherwise still among the clone's handlers. */
  ghost predicate Served(w: nat -> nat, s: State, t: nat, i: nat, out: State)
    requires Ok(w, s) && IsProto(s, t) && i < |s.recs[t].handlers|
  {
    var x := CopySlot(w, s, t, i);
    CopyOf(s, s.recs[t].handlers[i], CloneF(w, s, t), x) && SlotKept(out, |s.recs|, x)
  }

  lemma CopySlots(w: nat -> nat, s: State, t: nat, i: nat)
    requires Ok(w, s) && IsProto(s, t) && i < |s.recs[t].handlers|
    ensures Served(w, s, t, i, CloneF(w, s, t))
  {
    var s1, x, h := CloneF(w, s, t), CopySlot(w, s, t, i), s.recs[t].handlers[i];
    CloneShape(w, s, t);
    CloneKept(w, s, t);
    assert CopyOf(s, h, s1, x) && RecOk(w, s, t) && RecOk(w, s1, |s.recs|);
    if !IsProto(s, h) { assert KeptAt(s, s1, h); }
  }

  /** An invocation fires the clone, keeps the sequence, and serves each slot of the sequence. */
  lemma InvokeReaches(w: nat -> nat, s: State, t: nat, v: Value, i: nat)
    requires Ok(w, s) && IsProto(s, t) && !v.Prom? && i < |s.recs[t].handlers|
    ensures var out := FinishF(w, s, t, v, Settle(Done));
            Fired(out.recs[|s.recs|]) && KeptAt(s, out, t) && Served(w, s, t, i, out)
  {
    var c, s1 := |s.recs|, CloneF(w, s, t);
    var out := ResolveF(w, s1, c, v, Settle(Done));
    CopySlots(w, s, t, i);
    CloneKept(w, s, t);
    ResolveKept(w, s1, c, v, Settle(Done));
    KeptTrans(s, s1, out);
    assert KeptAt(s, out, t);
    ResolveAdvances(w, s1, c, v, Settle(Done));
    ResolveServes(w, s1, c, v, Settle(Done), c, CopySlot(w, s, t, i));
  }

  // ---- Runs -----------------------------------------------------------------------------------

  lemma {:induction false} ProtoSlotsIn(s: State, hs: seq<nat>, h: nat)
    ensures h in ProtoSlots(s, hs) <==> h in hs && IsProto(s, h)
  {
    if hs != [] { ProtoSlotsIn(s, hs[1..], h); }
  }

  lemma KeptSlot(s: State, s': State, t: nat, h: nat)
    requires Kept(s, s') && IsProto(s, t) && IsProto(s, h) && h in s.recs[t].handlers
    ensures h in s'.recs[t].handlers
  {
    assert KeptAt(s, s', t);
    ProtoSlotsIn(s, s.recs[t].handlers, h);
    ProtoSlotsIn(s', s'.recs[t].handlers, h);
  }

  /** Only forgetting takes a prototype out of a sequence. */
  lemma SlotStays(s: State, op: Op, t: nat, h: nat)
    requires Good(s) && Legal(s, op) && !Forgets(op, t)
    requires IsProto(s, t) && IsProto(s, h) && h in s.recs[t].handlers
    ensures IsProto(Step(s, op), t) && IsProto(Step(s, op), h) && h in Step(s, op).recs[t].handlers
  {
    var w := Weights(s);
    assert Ok(w, s);
    StepSame(s, op, t);
    StepSame(s, op, h);
    hide Good, Ok, ResolveF, CloneF, Kept, RemoveWhere;
    match op
    case New(_, _, _, _) =>
    case Then(p, done, fail) => ThenSlot(w, s, p, done, fail, t, h);
    case Append(p, x) =>
    case Forget(p, x) => SlotsOk(w, s, p); RemoveSlot(w, s, p, IsHandler(x), t);
    case ForgetNamed(p, name) => SlotsOk(w, s, p); RemoveSlot(w, s, p, HasName(s.recs, name), t);
    case SetName(p, name) =>
    case Finish(p, kind, v) => FinishKept(w, s, p, v, Settle(kind)); KeptSlot(s, Step(s, op), t, h);
    case UserFinish(p, kind, v) =>
      FinishKept(w, s, p, v, Settle(kind));
      if UserMayFinish(s.recs[p]) { KeptSlot(s, Step(s, op), t, h); }
    case Invoke(p, v) => FinishKept(w, s, p, v, Settle(Done)); KeptSlot(s, Step(s, op), t, h);
    case CancelWith(p, e) =>
      if !Finished(s.recs[p]) {
        CancelingOk(w, s, p);
        ResolveKept(w, Canceling(s, p), p, Error(e), Cancel);
        KeptSlot(Canceling(s, p), Step(s, op), t, h);
      }
    case Release(p) =>
  }

  lemma RemoveSlot(w: nat -> nat, s: State, p: nat, drop: nat -> bool, t: nat)
    requires SlotsInRange(s.recs, p) && t < |s.recs| && p != t
    ensures t < |RemoveWhere(s, p, drop).recs| && RemoveWhere(s, p, drop).recs[t].handlers == s.recs[t].handlers
  {
    ReleasedSlots(w, s, s.recs[p].handlers, drop, 0);
  }

  lemma ThenSlot(w: nat -> nat, s: State, p: nat, done: Callback, fail: Callback, t: nat, h: nat)
    requires Ok(w, s) && p < |s.recs| && IsProto(s, t) && IsProto(s, h) && h in s.recs[t].handlers
    ensures |s.recs| <= |ThenF(w, s, p, done, fail).recs| && h in ThenF(w, s, p, done, fail).recs[t].handlers
  {
    var r := Pending(done, fail, Callback.Unset, PlainFlags(IsProto(s, p)));
    if Finished(s.recs[p]) {
      assert RecOk(w, s, p);
      CreatedOk(w, s, r);
      ResolveKept(w, Created(s, r), |s.recs|, s.recs[p].result, Settle(OutcomeKind(s.recs[p])));
      KeptSlot(Created(s, r), ThenF(w, s, p, done, fail), t, h);
    }
  }

  lemma {:induction false} AttachedStays(trace: seq<State>, ops: seq<Op>, j: nat, k: nat, t: nat, h: nat)
    requires IsRun(trace, ops) && j <= k <= |ops|
    requires IsProto(trace[j], t) && IsProto(trace[j], h) && h in trace[j].recs[t].handlers
    requires forall m | j <= m < k :: !Forgets(ops[m], t)
    ensures IsProto(trace[k], t) && IsProto(trace[k], h) && h in trace[k].recs[t].handlers
    decreases k
  {
    if j < k {
      AttachedStays(trace, ops, j, k - 1, t, h);
      RunGood(trace, ops, k - 1);
      assert StepsTo(trace, ops, k - 1);
      SlotStays(trace[k - 1], ops[k - 1], t, h);
    }
  }

  /** Operation `k` invokes `t`, and nobody forgets handlers of its clone before `n`. */
  ghost predicate Invokes(trace: seq<State>, ops: seq<Op>, k: nat, n: nat, t: nat) {
    && IsRun(trace, ops) && k < n <= |ops| && ops[k].Invoke? && ops[k].p == t
    && forall m | k < m < n :: !Forgets(ops[m], |trace[k].recs|)
  }

  /** What slot `i` of `t` comes to, at any time after the invocation in step `k`. */
  lemma InvokedSlot(trace: seq<State>, ops: seq<Op>, k: nat, n: nat, t: nat, i: nat)
    requires Invokes(trace, ops, k, n, t) && IsProto(trace[k], t) && i < |trace[k].recs[t].handlers|
    ensures Good(trace[k]) && Served(Weights(trace[k]), trace[k], t, i, trace[n])
  {
    var s := trace[k];
    RunGood(trace, ops, k);
    assert StepsTo(trace, ops, k);
    hide Step, CloneF, Good, CopyOf, SlotKept, CopySlot, Legal;
    StepServed(s, ops[k], t, i);
    RunServes(trace, ops, k + 1, n, |s.recs|, CopySlot(Weights(s), s, t, i));
  }

  lemma StepServed(s: State, op: Op, t: nat, i: nat)
    requires Good(s) && Legal(s, op) && op.Invoke? && op.p == t && IsProto(s, t) && i < |s.recs[t].handlers|
    ensures Served(Weights(s), s, t, i, Step(s, op))
  {
    hide CloneF, Served, FinishF, KeptAt;
    InvokeReaches(Weights(s), s, t, op.v, i);
  }

  /** A prototype attached to a sequence fires on every later invocation, until it is forgotten: each of
      its slots has a copy of its own in the clone of the invocation; when the clone has settled, at once
      or at any later time `n`, that copy has fired, and until then it is one of the clone's handlers. */
  lemma PrototypeFiresEveryTime(trace: seq<State>, ops: seq<Op>, j: nat, k: nat, n: nat, t: nat, h: nat)
    requires Invokes(trace, ops, k, n, t) && j <= k
    requires IsProto(trace[j], t) && IsProto(trace[j], h) && h in trace[j].recs[t].handlers
    requires forall m | j <= m < k :: !Forgets(ops[m], t)
    ensures Good(trace[k]) && IsProto(trace[k], t) && IsProto(trace[k], h) && h in trace[k].recs[t].handlers
    ensures var w, s := Weights(trace[k]), trace[k];
            forall i | 0 <= i < |s.recs[t].handlers| && s.recs[t].handlers[i] == h :: Served(w, s, t, i, trace[n])
  {
    AttachedStays(trace, ops, j, k, t, h);
    RunGood(trace, ops, k);
    var w, s := Weights(trace[k]), trace[k];
    forall i | 0 <= i < |s.recs[t].handlers| && s.recs[t].handlers[i] == h ensures Served(w, s, t, i, trace[n]) {
      InvokedSlot(trace, ops, k, n, t, i);
    }
  }

  /** The copies of different slots are different promises. */
  lemma CopiesDiffer(w: nat -> nat, s: State, t: nat, i: nat, j: nat)
    requires Ok(w, s) && IsProto(s, t) && i < j < |s.recs[t].handlers|
    requires IsProto(s, s.recs[t].handlers[i]) && IsProto(s, s.recs[t].handlers[j])
    ensures CopySlot(w, s, t, i) < CopySlot(w, s, t, j)
  {
    CloneShape(w, s, t);
  }

  /** Any other handler leaves the sequence at the first invocation and becomes a handler of its clone;
      when the clone has settled, it has fired.  If it was waiting for the sequence, it waits for the clone
      instead, and when the clone has settled it no longer does: it has been woken.  It then waits for the
      sequence again only if its script yields the sequence again. */
  lemma ExternalFiresOnce(trace: seq<State>, ops: seq<Op>, k: nat, n: nat, t: nat, x: nat)
    requires Invokes(trace, ops, k, n, t) && t < |trace[k].recs|
    requires x in trace[k].recs[t].handlers && x < |trace[k].recs| && !trace[k].recs[x].flags.proto
    ensures Good(trace[k]) && IsProto(trace[k], t)
    ensures var w, s, c := Weights(trace[k]), trace[k], |trace[k].recs|;
            var s1 := CloneF(w, s, t);
            && x !in s1.recs[t].handlers && x in s1.recs[c].handlers && SlotKept(trace[n], c, x)
            && (s.recs[x].await == Some(t) ==>
                  && s1.recs[x].await == Some(c)
                  && (Finished(trace[n].recs[c]) ==> trace[n].recs[x].await != Some(c)))
  {
    RunGood(trace, ops, k);
    assert StepsTo(trace, ops, k);
    var s, w, c := trace[k], Weights(trace[k]), |trace[k].recs|;
    CloneShape(w, s, t);
    ProtoSlotsIn(s, s.recs[t].handlers, x);
    var i :| 0 <= i < |s.recs[t].handlers| && s.recs[t].handlers[i] == x;
    assert CopyOf(s, x, CloneF(w, s, t), CloneF(w, s, t).recs[c].handlers[i]);
    InvokedSlot(trace, ops, k, n, t, i);
    if s.recs[x].await == Some(t) { CloneRelinks(w, s, t, x); }
    RunGood(trace, ops, n);
    assert !Stuck(trace[n], x);
  }

  // ---- The hook of an emptied sequence --------------------------------------------------------

  /** How often the autoclean hook of `t` has run. */
  function Cleans(log: seq<Event>, t: nat): nat {
    if log == [] then 0 else Cleans(log[..|log| - 1], t) + if log[|log| - 1] == Cleaned(t) then 1 else 0
  }

  lemma CleanCount(s: State, i: nat, t: nat)
    requires i < |s.recs|
    ensures var r := s.recs[i];
            Cleans(TryClean(s, i).log, t) == Cleans(s.log, t)
            + if i == t && r.flags.autoclean && r.handlers == [] && !r.canceler.Unset? then 1 else 0
  {
    assert (s.log + [Cleaned(i)])[..|s.log|] == s.log;
  }

  /** Cloning a lighter sequence does not run the hook of `t`. */
  lemma {:induction false} LighterCleans(w: nat -> nat, s: State, i: nat, t: nat)
    requires Ok(w, s) && IsProto(s, i) && w(i) < w(t)
    ensures Cleans(CloneF(w, s, i).log, t) == Cleans(s.log, t)
    decreases w(i), |s.recs[i].handlers| + 1
  {
    var s1 := s.(recs := s.recs + [Blank(s.recs[i])]);
    CloneUnfolds(w, s, i);
    SlotsCleans(w, s1, i, |s.recs|, 0, t);
    CleanCount(CloneSlots(w, s1, i, |s.recs|, 0), i, t);
  }

  lemma {:induction false} SlotsCleans(w: nat -> nat, s: State, i: nat, c: nat, k: nat, t: nat)
    requires Cloneable(w, s, i, c, k) && w(i) <= w(t)
    ensures Cleans(CloneSlots(w, s, i, c, k).log, t) == Cleans(s.log, t)
    decreases w(i), |s.recs[i].handlers| - k
  {
    var hs := s.recs[i].handlers;
    hide Ok, MoveSlot, Cleans;
    if k < |hs| {
      SlotLighter(w, s, i, k);
      if IsProto(s, hs[k]) {
        var s1 := CloneF(w, s, hs[k]);
        var s2 := s1.(recs := PushSlot(s1.recs, c, |s.recs|));
        NestedOk(w, s, i, c, k, s1, s2);
        LighterCleans(w, s, hs[k], t);
        NestedUnfolds(w, s, i, c, k, s2);
        SlotsCleans(w, s2, i, c, k + 1, t);
      } else {
        var s2 := s.(recs := MoveSlot(s.recs, i, c, k));
        MoveOk(w, s, i, c, k, s2);
        MovedUnfolds(w, s, i, c, k, s2);
        SlotsCleans(w, s2, i, c, k, t);
      }
    }
  }

  /** Cloning runs the hook of the sequence exactly if it has one, had handlers, and none of them stays. */
  lemma CloneCleans(w: nat -> nat, s: State, t: nat)
    requires Ok(w, s) && IsProto(s, t)
    ensures var r := s.recs[t];
            var emptied := r.handlers != [] && forall j | 0 <= j < |r.handlers| :: !IsProto(s, r.handlers[j]);
            Cleans(CloneF(w, s, t).log, t)
            == Cleans(s.log, t) + if r.flags.autoclean && !r.canceler.Unset? && emptied then 1 else 0
  {
    var s1, r := s.(recs := s.recs + [Blank(s.recs[t])]), s.recs[t];
    CloneUnfolds(w, s, t);
    CloneShape(w, s, t);
    var s2 := CloneSlots(w, s1, t, |s.recs|, 0);
    SlotsCleans(w, s1, t, |s.recs|, 0, t);
    CleanCount(s2, t, t);
    assert FrameAt(w, s1, s2, t, w(t), |s.recs|);
    ProtoSlotsNone(s, r.handlers);
    hide Ok, CloneF, CloneSlots, Copies, Cleans;
    if r.handlers != [] { assert s2.recs == CloneF(w, s, t).recs; }
  }

  lemma {:induction false} ProtoSlotsNone(s: State, hs: seq<nat>)
    ensures ProtoSlots(s, hs) == [] <==> forall j | 0 <= j < |hs| :: !IsProto(s, hs[j])
  {
    if hs != [] {
      ProtoSlotsNone(s, hs[1..]);
      assert forall j | 0 <= j < |hs| - 1 :: hs[1..][j] == hs[j + 1];
    }
  }
}
