/** Whole runs over a stream: lines and bytes. */
module Lines {
  import opened Tokens
  import opened Streams
  import opened Concatenation

  // ---- The line reader ------------------------------------------------------------------------

  function Line(b: Bytes, t: Bytes, mode: Mode): Bytes
    requires Index(b, t) != -1
  {
    b[..Index(b, t) + if mode.WITH? then |t| else 0]
  }

  /** The whole input split at the token. */
  function Split(b: Bytes, t: Bytes, mode: Mode): seq<Bytes>
    requires t != []
    decreases |b|
  {
    if Index(b, t) == -1 then [] else [Line(b, t, mode)] + Split(b[Index(b, t) + |t|..], t, mode)
  }

  /** What follows the last token. */
  function Rest(b: Bytes, t: Bytes): Bytes
    requires t != []
    decreases |b|
  {
    if Index(b, t) == -1 then b else Rest(b[Index(b, t) + |t|..], t)
  }

  function Join(lines: seq<Bytes>, t: Bytes): Bytes {
    if lines == [] then [] else lines[0] + t + Join(lines[1..], t)
  }

  /** One step of splitting, with the pieces it cuts. */
  lemma SplitStep(b: Bytes, t: Bytes, mode: Mode) returns (i: nat, line: Bytes, rest: Bytes)
    requires t != [] && Index(b, t) != -1
    ensures i == Index(b, t) && i + |t| <= |b| && line == Line(b, t, mode) && rest == b[i + |t|..] && |rest| < |b|
    ensures Split(b, t, mode) == [line] + Split(rest, t, mode) && Rest(b, t) == Rest(rest, t)
    ensures b == b[..i] + t + rest && line == if mode.WITH? then b[..i] + t else b[..i]
  {
    i := Index(b, t);
    assert At(b, t, i);
    hide Find;
    line, rest := Line(b, t, mode), b[i + |t|..];
    assert b[i..i + |t|] == t;
    assert b == b[..i] + b[i..i + |t|] + rest;
    assert b[..i + |t|] == b[..i] + t;
  }

  /** Splitting loses nothing: the lines with their tokens, and the rest, are the input again. */
  lemma {:induction false} SplitJoins(b: Bytes, t: Bytes)
    requires t != []
    ensures Join(Split(b, t, TRIM), t) + Rest(b, t) == b
    ensures Flatten(Split(b, t, WITH)) + Rest(b, t) == b
    ensures Index(Rest(b, t), t) == -1
    decreases |b|
  {
    if Index(b, t) != -1 {
      var i, line, rest := SplitStep(b, t, TRIM);
      var i', line', rest' := SplitStep(b, t, WITH);
      SplitJoins(rest, t);
      hide Index, Split, Rest;
      JoinFront(line, Split(rest, t, TRIM), t);
      assert line' == line + t;
      assert ([line'] + Split(rest, t, WITH))[1..] == Split(rest, t, WITH);
      Assoc(line + t, Join(Split(rest, t, TRIM), t), Rest(rest, t));
      Assoc(line', Flatten(Split(rest, t, WITH)), Rest(rest, t));
    }
  }

  lemma JoinFront(line: Bytes, lines: seq<Bytes>, t: Bytes)
    ensures Join([line] + lines, t) == line + t + Join(lines, t)
  {
    assert ([line] + lines)[1..] == lines;
  }

  /** The first token of a text is the first token of its first line. */
  lemma FirstLine(b: Bytes, t: Bytes)
    requires t != [] && Index(b, t) != -1
    ensures Index(b[..Index(b, t)] + t, t) == Index(b, t)
  {
    var i := Index(b, t);
    var l, rest := b[..i] + t, b[i + |t|..];
    assert b[i..i + |t|] == t && l == b[..i + |t|] && l[i..i + |t|] == t && b == l + rest;
    forall j | 0 <= j < i ensures !At(l, t, j) { if j + |t| <= |l| { AtGrows(l, rest, t, j); } }
    FindUnique(l, t, 0, |l|, i);
  }

  /** No line contains the token, not even together with the front of the token that ends it. */
  lemma {:induction false} LinesAreFirst(b: Bytes, t: Bytes, k: nat)
    requires t != [] && k < |Split(b, t, TRIM)|
    ensures Index(Split(b, t, TRIM)[k] + t, t) == |Split(b, t, TRIM)[k]|
    decreases |b|
  {
    var i, line, rest := SplitStep(b, t, TRIM);
    FirstLine(b, t);
    hide Split, Index, Line, At;
    if k > 0 {
      LinesAreFirst(rest, t, k - 1);
      assert ([line] + Split(rest, t, TRIM))[k] == Split(rest, t, TRIM)[k - 1];
    }
  }

  /** One step of splitting, with and without the bytes that arrive later. */
  lemma StepGrows(b: Bytes, x: Bytes, t: Bytes, mode: Mode) returns (line: Bytes, rest: Bytes)
    requires t != [] && Index(b, t) != -1
    ensures |rest| < |b|
    ensures Split(b, t, mode) == [line] + Split(rest, t, mode) && Rest(b, t) == Rest(rest, t)
    ensures Split(b + x, t, mode) == [line] + Split(rest + x, t, mode) && Rest(b + x, t) == Rest(rest + x, t)
  {
    IndexGrows(b, x, t);
    var i: nat;
    i, line, rest := SplitStep(b, t, mode);
    var i', line', rest' := SplitStep(b + x, t, mode);
    hide Index, Split, Rest, Line;
    CutConcat(b, x, i);
    CutConcat(b, x, i + |t|);
  }

  lemma CutConcat(b: Bytes, x: Bytes, i: nat)
    requires i <= |b|
    ensures (b + x)[..i] == b[..i] && (b + x)[i..] == b[i..] + x
  {
  }

  /** Bytes that arrive later only ever extend what is left over. */
  lemma {:induction false} SplitGrows(b: Bytes, x: Bytes, t: Bytes, mode: Mode)
    requires t != []
    ensures Split(b + x, t, mode) == Split(b, t, mode) + Split(Rest(b, t) + x, t, mode)
    ensures Rest(b + x, t) == Rest(Rest(b, t) + x, t)
    decreases |b|
  {
    hide Index, Split, Rest, Line;
    if Index(b, t) != -1 {
      var line, rest := StepGrows(b, x, t, mode);
      SplitGrows(rest, x, t, mode);
      Assoc([line], Split(rest, t, mode), Split(Rest(rest, t) + x, t, mode));
    } else {
      NoLine(b, t, mode);
    }
  }

  /** A line read takes the first line of the split. */
  lemma LineTaken(b: Bytes, t: Bytes, mode: Mode, line: Bytes, rest: Bytes)
    requires t != [] && !mode.WITHOUT? && IsLine(b, t, mode, line, rest)
    ensures line == Line(b, t, mode) && rest == b[Index(b, t) + |t|..] && |rest| < |b|
    ensures Split(b, t, mode) == [line] + Split(rest, t, mode) && Rest(b, t) == Rest(rest, t)
  {
    var i := Index(b, t);
    assert b[i..i + |t|] == t;
    assert line == b[..|line|];
  }

  /** Asks for lines until it has to wait. */
  method ReadReady(s: Stream, t: Bytes, mode: Mode) returns (lines: seq<Bytes>)
    requires s.Valid() && !s.reading && t != [] && !mode.WITHOUT?
    modifies s
    ensures s.Valid() && Waiting(s, t, mode) && fresh(s.token) && s.low == old(s.low)
    ensures lines == Split(old(s.input), t, mode) && s.input == Rest(old(s.input), t)
    ensures s.received == old(s.received)
  {
    hide Index, Split, Rest, IsLine, Find, GivesUp, IsCut, s.Valid;
    lines := [];
    ghost var was := s.input;
    var answer := s.ReadLine(t, mode, 0);
    while answer.Text?
      invariant s.Valid() && s.low == old(s.low) && s.received == old(s.received) && (answer.Text? || answer.Waits?)
      invariant answer.Text? ==> IsLine(was, t, mode, answer.data, s.input) && !s.reading
      invariant answer.Waits? ==> Waiting(s, t, mode) && fresh(s.token) && s.input == was && Index(was, t) == -1
      invariant lines + Split(was, t, mode) == Split(old(s.input), t, mode) && Rest(was, t) == Rest(old(s.input), t)
      decreases |was|
    {
      LineTaken(was, t, mode, answer.data, s.input);
      lines := lines + [answer.data];
      was := s.input;
      answer := s.ReadLine(t, mode, 0);
    }
    NoLine(was, t, mode);
  }

  lemma NoLine(b: Bytes, t: Bytes, mode: Mode)
    requires t != [] && Index(b, t) == -1
    ensures Split(b, t, mode) == [] && Rest(b, t) == b
  {
  }

  /** A line read is pending, and nobody has taken bytes from under it. */
  ghost predicate Waiting(s: Stream, t: Bytes, mode: Mode)
    reads s, s.token
  {
    s.reading && s.token != null && s.token.token == t && s.token.mode == mode && s.token.length == 0 && !s.disturbed
  }

  /** A reader that asks for the next line as soon as it has one gets the split of the whole input,
      however the input was cut into chunks. */
  method ReadLines(s: Stream, t: Bytes, mode: Mode, chunks: seq<Bytes>) returns (lines: seq<Bytes>)
    requires s.Valid() && !s.reading && s.low == 0 && t != [] && !mode.WITHOUT?
    modifies s, s.token
    ensures s.Valid() && Waiting(s, t, mode)
    ensures lines == Split(old(s.input) + Flatten(chunks), t, mode)
    ensures s.input == Rest(old(s.input) + Flatten(chunks), t)
  {
    ghost var start := s.input;
    assert start + Flatten([]) == start;
    lines := ReadReady(s, t, mode);
    assert chunks[..0] == [];
    for n := 0 to |chunks|
      invariant s.Valid() && Waiting(s, t, mode) && fresh(s.token) && s.low == 0
      invariant lines == Split(start + Flatten(chunks[..n]), t, mode)
      invariant s.input == Rest(start + Flatten(chunks[..n]), t)
    {
      hide Split, Rest, Flatten, s.Valid;
      assert chunks[..n + 1] == chunks[..n] + [chunks[n]];
      FlattenSnoc(chunks[..n], chunks[n]);
      assert start + Flatten(chunks[..n + 1]) == start + Flatten(chunks[..n]) + chunks[n];
      SplitGrows(start + Flatten(chunks[..n]), chunks[n], t, mode);
      var more := Event(s, t, mode, chunks[n]);
      lines := lines + more;
    }
    assert chunks[..|chunks|] == chunks;
  }

  /** One input event: the pending read gets its line, and its handler asks for the lines after it. */
  method Event(s: Stream, t: Bytes, mode: Mode, chunk: Bytes) returns (lines: seq<Bytes>)
    requires s.Valid() && Waiting(s, t, mode) && s.low == 0 && t != [] && !mode.WITHOUT?
    modifies s, s.token
    ensures s.Valid() && Waiting(s, t, mode) && (s.token == old(s.token) || fresh(s.token)) && s.low == 0
    ensures lines == Split(old(s.input) + chunk, t, mode) && s.input == Rest(old(s.input) + chunk, t)
  {
    ghost var all := s.input + chunk;
    if Index(all, t) == -1 {
      MissesExactly(all, t, s.token.offset);
      NoLine(all, t, mode);
    }
    hide Split, Rest, IsLine, Find, GivesUp, IsCut, GotNext, Index;
    var announced, had, outcome := s.Arrive(chunk);
    lines := [];
    if outcome != [] {
      LineTaken(all, t, mode, outcome[0].data, s.input);
      var more := ReadReady(s, t, mode);
      lines := [outcome[0].data] + more;
    }
    var tell := s.Leave(had);
  }

  // ---- Arbitrary runs -------------------------------------------------------------------------

  datatype Call =
    | Arrives(data: Bytes) | Ends | Breaks | Cancels
    | Reads(count: int) | ReadsLine(token: Bytes, mode: Mode, limit: int) | ReadsAll
    | Gets(count: int) | GetsLine(token: Bytes, mode: Mode, limit: int) | GetsAll

  function Arrived(calls: seq<Call>): Bytes {
    if calls == [] then []
    else Arrived(calls[..|calls| - 1]) + if calls[|calls| - 1].Arrives? then calls[|calls| - 1].data else []
  }

  predicate Trims(c: Call, t: Bytes) { (c.ReadsLine? || c.GetsLine?) && c.mode.TRIM? && c.token == t }

  /** Some line read in the trimming mode has named the token. */
  predicate Named(calls: seq<Call>, t: Bytes) {
    exists k | 0 <= k < |calls| :: Trims(calls[k], t)
  }

  function Data(ps: seq<Piece>): Bytes {
    if ps == [] then [] else Data(ps[..|ps| - 1]) + ps[|ps| - 1].data
  }

  /** What was dropped is only ever a token that some call asked to trim. */
  ghost predicate OnlyTokens(s: Stream, calls: seq<Call>)
    reads s, s.token
  {
    && (forall p | p in s.pieces :: p.dropped == [] || Named(calls, p.dropped))
    && (s.token != null && s.token.mode.TRIM? ==> Named(calls, s.token.token))
  }

  function TextOfOutcome(outcome: seq<Outcome>): Bytes {
    if outcome != [] && outcome[0].Delivered? then outcome[0].data else []
  }

  /** One call or event. */
  method Do(s: Stream, c: Call) returns (text: Bytes, ghost t: Bytes)
    requires s.Valid()
    modifies s, s.token
    ensures s.Valid() && s.received == old(s.received) + if c.Arrives? then c.data else []
    ensures || s.token == null || s.token == old(s.token)
            || (fresh(s.token) && c.ReadsLine? && s.token.token == c.token && s.token.mode == c.mode)
    ensures s.Hands(text, t)
    ensures t == [] || (old(s.token) != null && old(s.token.mode).TRIM? && t == old(s.token.token)) || Trims(c, t)
  {
    t := if c.ReadsLine? || c.GetsLine? then Trimmed(c.mode, c.token)
         else if s.token != null then Trimmed(s.token.mode, s.token.token) else [];
    match c
    case Arrives(data) =>
      var announced, had, outcome := s.Arrive(data);
      text := TextOfOutcome(outcome);
    case Ends => var outcome := s.Eof(); text := TextOfOutcome(outcome); t := [];
    case Breaks => var outcome := s.Fail(); text := [];
    case Cancels => if s.reading { s.Cancel(); } text := [];
    case Reads(n) => var a := s.Read(n); text := TextOf(a); t := [];
    case ReadsLine(token, mode, limit) => var a := s.ReadLine(token, mode, limit); text := TextOf(a);
    case ReadsAll => var a := s.ReadAll(); text := TextOf(a); t := [];
    case Gets(n) => var a := s.Get(n); text := TextOf(a); t := [];
    case GetsLine(token, mode, limit) => var a := s.GetLine(token, mode, limit); text := TextOf(a);
    case GetsAll => var a := s.GetAll(); text := TextOf(a); t := [];
  }

  /** Over any run on a new stream: what the program received, in order, with the dropped tokens in
      their places, followed by what is still buffered, is everything that arrived. */
  method Play(calls: seq<Call>) returns (s: Stream, texts: seq<Bytes>)
    ensures fresh(s) && s.Valid() && OnlyTokens(s, calls)
    ensures Flat(s.pieces) + s.input == Arrived(calls) && Data(s.pieces) == Flatten(texts)
  {
    s := new Stream();
    texts := [];
    for n := 0 to |calls|
      invariant s.Valid() && fresh(s) && (s.token == null || fresh(s.token)) && OnlyTokens(s, calls[..n])
      invariant s.received == Arrived(calls[..n]) && Data(s.pieces) == Flatten(texts)
    {
      ghost var before := s.pieces;
      hide s.Valid, Data, Flatten, Flat;
      var text, t := Do(s, calls[n]);
      assert calls[..n + 1] == calls[..n] + [calls[n]] && calls[..n + 1][..n] == calls[..n];
      NamedLater(calls[..n], calls[n]);
      Accounted(before, s.pieces, texts, text, t);
      texts := texts + [text];
    }
    assert calls[..|calls|] == calls;
  }

  lemma Accounted(before: seq<Piece>, after: seq<Piece>, texts: seq<Bytes>, text: Bytes, t: Bytes)
    requires || (text == [] && after == before)
             || exists d :: (d == [] || d == t) && after == before + [Piece(text, d)]
    requires Data(before) == Flatten(texts)
    ensures Data(after) == Flatten(texts + [text])
    ensures forall p | p in after :: p in before || p.dropped == [] || p.dropped == t
  {
    FlattenSnoc(texts, text);
    if after != before {
      var d :| (d == [] || d == t) && after == before + [Piece(text, d)];
      assert after[..|before|] == before;
    }
  }

  lemma NamedLater(calls: seq<Call>, c: Call)
    ensures forall t | Named(calls, t) :: Named(calls + [c], t)
    ensures forall t | Trims(c, t) :: Named(calls + [c], t)
  {
    assert (calls + [c])[|calls|] == c;
    forall t | Named(calls, t) ensures Named(calls + [c], t) {
      var k :| 0 <= k < |calls| && Trims(calls[k], t);
      assert (calls + [c])[k] == calls[k];
    }
  }

  // ---- Where wake-ups are missed --------------------------------------------------------------

  lemma NoByte(b: Bytes, x: byte, from: nat)
    requires from <= |b| && forall i | from <= i < |b| :: b[i] != x
    ensures Find(b, [x], from, |b|) == -1
  {
    forall i | from <= i < |b| ensures !At(b, [x], i) { assert b[i..i + 1][0] == b[i]; }
    FindUnique(b, [x], from, |b|, -1);
  }

  /** Taking bytes from under a pending line read leaves its offset pointing too far: the token that
      arrives next is at the very front of the buffer, input is announced, and the read still waits. */
  method TakenFromUnder() returns (s: Stream)
    ensures fresh(s) && s.Valid() && s.token != null && s.token.length == 0 && s.disturbed
    ensures s.low <= |s.input| && Index(s.input, s.token.token) == 0
  {
    hide Find;
    s := new Stream();
    var newline: Bytes := [10];
    NoByte([], 10, 0);
    var a := s.ReadLine(newline, TRIM, 0);
    NoByte([97, 98, 99], 10, 0);
    assert s.input + [97, 98, 99] == [97, 98, 99];
    var b, had, out := s.Arrive([97, 98, 99]);
    assert s.token.offset == 3;
    a := s.GetAll();
    NoByte([10, 97, 98, 99], 10, 3);
    assert s.input + [10, 97, 98, 99] == [10, 97, 98, 99];
    b, had, out := s.Arrive([10, 97, 98, 99]);
    assert [10, 97, 98, 99][0..1] == newline;
    FindUnique(s.input, newline, 0, |s.input|, 0);
  }

  /** Cancelling a count read leaves its watermark: a line read begun then is not told of its line. */
  method CancelledCount() returns (s: Stream)
    ensures fresh(s) && s.Valid() && s.token != null && s.token.length == 0 && !s.disturbed
    ensures |s.input| < s.low && Index(s.input, s.token.token) == 1
  {
    s := new Stream();
    var newline: Bytes := [10];
    var a := s.Read(10);
    s.Cancel();
    NoByte([], 10, 0);
    a := s.ReadLine(newline, TRIM, 0);
    assert s.input + [97, 10] == [97, 10];
    var b, had, out := s.Arrive([97, 10]);
    assert [97, 10][1..2] == newline && [97, 10][0..1][0] != 10;
    FindUnique([97, 10], newline, 0, 2, 1);
  }
}
