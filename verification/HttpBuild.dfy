/** pion_http_message_build: the two passes. */
module HttpBuild {
  import opened Values
  import opened Headers
  import opened Uris
  import opened Http
  import opened Concatenation

  const PIPE_SIZE := 32

  /** The entries that a header needs, counted before the last comma is overwritten. */
  function Entries(h: Header): nat { 2 + 2 * |h.values| }

  /** The pipe before a header is stored at `pos`: doubled once if the header does not fit. */
  function Grown(size: nat, pos: nat, h: Header): nat { if pos + Entries(h) > size then 2 * size else size }

  /** Every write of the headers falls inside the pipe. */
  predicate Fits(hs: seq<Header>, size: nat, pos: nat)
    decreases |hs|
  {
    hs == [] || (pos + Entries(hs[0]) <= Grown(size, pos, hs[0])
                 && Fits(hs[1..], Grown(size, pos, hs[0]), pos + Entries(hs[0])))
  }

  function Head(m: Msg): nat { if m.type_.MESSAGE? then 0 else 8 }

  predicate FitsMessage(m: Msg) { Fits(m.headers, PIPE_SIZE, Head(m)) }

  /** Up to 15 values per header always fit, however many headers there are. */
  lemma {:induction false} ShortListsFit(hs: seq<Header>, size: nat, pos: nat)
    requires size >= PIPE_SIZE && pos <= size && forall i | 0 <= i < |hs| :: |hs[i].values| <= 15
    ensures Fits(hs, size, pos)
    decreases |hs|
  {
    if hs != [] { ShortListsFit(hs[1..], Grown(size, pos, hs[0]), pos + Entries(hs[0])); }
  }

  /** A single header fits exactly up to 27 values, in a request or response. */
  lemma OneHeaderFits(h: Header)
    ensures Fits([h], PIPE_SIZE, 8) <==> |h.values| <= 27
  {
    assert [h][1..] == [];
  }

  /** 15 is the most that fits in every message: sixteen values behind a full pipe do not. */
  lemma SixteenMayNotFit(h: Header)
    ensures Fits([h], PIPE_SIZE, PIPE_SIZE) <==> |h.values| <= 15
  {
    assert [h][1..] == [];
  }

  /** How many headers have no value: each makes the measured size one too large. */
  function Empties(hs: seq<Header>): nat {
    if hs == [] then 0 else Empties(hs[..|hs| - 1]) + if hs[|hs| - 1].values == [] then 1 else 0
  }

  lemma {:induction false} LengthConcat(a: seq<Piece>, b: seq<Piece>)
    ensures Length(a + b) == Length(a) + Length(b)
  {
    if b == [] {
      assert a + b == a;
    } else {
      assert (a + b)[..|a + b| - 1] == a + b[..|b| - 1];
      LengthConcat(a, b[..|b| - 1]);
    }
  }

  /** erealloc to twice the size. */
  method Double(pipe: array<Piece>, pos: nat) returns (bigger: array<Piece>)
    requires pos <= pipe.Length
    ensures fresh(bigger) && bigger.Length == 2 * pipe.Length && bigger[..pos] == pipe[..pos]
  {
    bigger := new Piece[2 * pipe.Length];
    forall j | 0 <= j < pos { bigger[j] := pipe[j]; }
  }

  /** Stores some entries from `pos` on, each if it falls inside the pipe. */
  method Store(pipe: array<Piece>, pos: nat, ps: seq<Piece>) returns (over: bool)
    requires ps != []
    modifies pipe
    ensures over == (pos + |ps| > pipe.Length)
    ensures !over ==> pipe[..pos + |ps|] == old(pipe[..pos]) + ps
  {
    over := false;
    for j := 0 to |ps|
      invariant over == (j > 0 && pos + j > pipe.Length)
      invariant !over && pos <= pipe.Length ==> pos + j <= pipe.Length && pipe[..pos + j] == old(pipe[..pos]) + ps[..j]
    {
      if pos + j < pipe.Length { pipe[pos + j] := ps[j]; } else { over := true; }
      assert ps[..j + 1] == ps[..j] + [ps[j]];
      assert !over ==> pipe[..pos + j + 1] == pipe[..pos + j] + [ps[j]];
    }
    assert ps[..|ps|] == ps;
  }

  lemma {:induction false} ValuesSnoc(values: seq<string>, v: string)
    ensures ValuePieces(values + [v]) == ValuePieces(values) + [Str(v), Str(",")]
  {
    if values != [] {
      assert (values + [v])[1..] == values[1..] + [v];
      ValuesSnoc(values[1..], v);
    }
  }

  /** The values of a header and their commas, with what they add to the size. */
  method StoreValues(pipe: array<Piece>, start: nat, values: seq<string>) returns (pos: nat, size: nat, over: bool)
    requires start <= pipe.Length
    modifies pipe
    ensures pos == start + 2 * |values| && |ValuePieces(values)| == 2 * |values| && over == (pos > pipe.Length)
    ensures !over ==> pipe[..pos] == old(pipe[..start]) + ValuePieces(values)
    ensures size == Length(ValuePieces(values))
  {
    pos, size, over := start, 0, false;
    ghost var was := pipe[..start];
    assert ValuePieces(values[..0]) == [] && Length([]) == 0;
    for k := 0 to |values|
      invariant pos == start + 2 * k && |ValuePieces(values[..k])| == 2 * k && over == (pos > pipe.Length)
      invariant size == Length(ValuePieces(values[..k])) && (!over ==> Stored(pipe[..pos], was, values, k))
    {
      hide ValuePieces, Length, Stored;
      var two := [Str(values[k]), Str(",")];
      if !over { ValuesStep(pipe[..pos], was, values, k, two); }
      ValuesLength(values, k);
      var more := Store(pipe, pos, two);
      over := over || more;
      pos, size := pos + 2, size + |values[k]| + 1;
    }
    assert values[..|values|] == values;
  }

  lemma LengthTwo(a: Piece, b: Piece)
    ensures Length([a, b]) == |Chars(a)| + |Chars(b)| && Length([a]) == |Chars(a)|
  {
    assert [a][..0] == [] && Length([a]) == Length([]) + |Chars(a)|;
    assert [a, b][..1] == [a] && Length([a, b]) == Length([a]) + |Chars(b)|;
  }

  /** The first `k` values have been stored behind `was`. */
  ghost predicate Stored(front: seq<Piece>, was: seq<Piece>, values: seq<string>, k: nat) {
    k <= |values| && front == was + ValuePieces(values[..k])
  }

  lemma ValuesStep(front: seq<Piece>, was: seq<Piece>, values: seq<string>, k: nat, two: seq<Piece>)
    requires k < |values| && Stored(front, was, values, k) && two == [Str(values[k]), Str(",")]
    ensures Stored(front + two, was, values, k + 1)
  {
    assert values[..k + 1] == values[..k] + [values[k]];
    ValuesSnoc(values[..k], values[k]);
    Assoc(was, ValuePieces(values[..k]), two);
  }

  lemma ValuesLength(values: seq<string>, k: nat)
    requires k < |values|
    ensures |ValuePieces(values[..k + 1])| == |ValuePieces(values[..k])| + 2
    ensures Length(ValuePieces(values[..k + 1])) == Length(ValuePieces(values[..k])) + |values[k]| + 1
  {
    assert values[..k + 1] == values[..k] + [values[k]];
    ValuesSnoc(values[..k], values[k]);
    LengthTwo(Str(values[k]), Str(","));
    LengthConcat(ValuePieces(values[..k]), [Str(values[k]), Str(",")]);
  }

  /** One header; `over` says whether a write fell outside the pipe. */
  method AddHeader(given: array<Piece>, start: nat, h: Header)
    returns (pipe: array<Piece>, pos: nat, size: nat, over: bool)
    requires start <= given.Length
    modifies given
    ensures pipe == given || fresh(pipe)
    ensures pipe.Length == Grown(given.Length, start, h) && pos == start + Entries(h) && over == (pos > pipe.Length)
    ensures !over ==> pipe[..pos] == old(given[..start]) + HeaderPieces(h)
    ensures !over ==> size == Length(HeaderPieces(h)) + if h.values == [] then 1 else 0
  {
    hide ValuePieces, Length;
    pipe := given;
    HeaderLength(h);
    if |h.values| == 1 {
      if start + 4 > pipe.Length { pipe := Double(pipe, start); }
      over := Store(pipe, start, [Str(h.name), Str(": "), Str(h.values[0]), EndOfLine]);
      OneValue(h);
      pos, size := start + 4, |h.name| + 4 + |h.values[0]|;
    } else {
      if start + 2 + |h.values| * 2 > pipe.Length { pipe := Double(pipe, start); }
      pos, size, over := AddMany(pipe, start, h);
    }
  }

  /** A header with several values, or none: commas behind all values, then the last one is overwritten. */
  method AddMany(pipe: array<Piece>, start: nat, h: Header) returns (pos: nat, size: nat, over: bool)
    requires start <= pipe.Length
    modifies pipe
    ensures pos == start + Entries(h) && over == (pos > pipe.Length)
    ensures !over ==> pipe[..pos] == old(pipe[..start]) + HeaderPieces(h)
    ensures !over ==> size == |h.name| + 3 + Length(ValuePieces(h.values))
  {
    hide ValuePieces, Length;
    ghost var was, two := pipe[..start], [Str(h.name), Str(": ")];
    over := Store(pipe, start, [Str(h.name), Str(": ")]);
    if over {
      pos, size := start + Entries(h), 0;
      return;
    }
    pos, size, over := StoreValues(pipe, start + 2, h.values);
    size := size + |h.name| + 3;
    if over { return; }
    Assoc(was, two, ValuePieces(h.values));
    ghost var all := two + ValuePieces(h.values);
    assert pipe[..pos - 1] == was + all[..|all| - 1];
    pipe[pos - 1] := EndOfLine;
    assert pipe[..pos] == pipe[..pos - 1] + [EndOfLine];
  }

  lemma OneValue(h: Header)
    requires |h.values| == 1
    ensures HeaderPieces(h) == [Str(h.name), Str(": "), Str(h.values[0]), EndOfLine]
  {
    assert ValuePieces(h.values) == [Str(h.values[0]), Str(",")];
  }

  /** Overwriting the last comma adds one character; overwriting the colon keeps the length. */
  lemma HeaderLength(h: Header)
    ensures Length(HeaderPieces(h)) + (if h.values == [] then 1 else 0) == |h.name| + 3 + Length(ValuePieces(h.values))
    ensures |h.values| == 1 ==> Length(ValuePieces(h.values)) == |h.values[0]| + 1
  {
    var vs := ValuePieces(h.values);
    var two := [Str(h.name), Str(": ")];
    LengthTwo(Str(h.name), Str(": "));
    if h.values == [] {
      assert HeaderPieces(h) == [Str(h.name), EndOfLine];
      LengthTwo(Str(h.name), EndOfLine);
    } else {
      LastIsComma(h.values);
      assert (two + vs)[..|two + vs| - 1] == two + vs[..|vs| - 1];
      LengthConcat(two, vs[..|vs| - 1]);
      LengthConcat(two + vs[..|vs| - 1], [EndOfLine]);
      LengthConcat(vs[..|vs| - 1], [Str(",")]);
      LengthTwo(EndOfLine, EndOfLine);
      LengthTwo(Str(","), EndOfLine);
      assert vs == vs[..|vs| - 1] + [Str(",")];
      if |h.values| == 1 {
        assert vs == [Str(h.values[0]), Str(",")];
        LengthTwo(Str(h.values[0]), Str(","));
      }
    }
  }

  lemma {:induction false} LastIsComma(values: seq<string>)
    requires values != []
    ensures var vs := ValuePieces(values); vs != [] && vs[|vs| - 1] == Str(",")
  {
    if |values| > 1 { LastIsComma(values[1..]); }
  }

  /** The measuring pass: fills the pipe, and the size is exact but for headers without values.  `over`
      says whether a write falls outside the pipe; it does so exactly when the message does not fit. */
  method Collect(m: Msg, table: nat -> Option<string>)
    returns (pipe: array<Piece>, pos: nat, size: nat, over: bool)
    requires m.type_.RESPONSE? ==> Reason(m, table).Some?
    requires m.uri.Some? ==> m.uri.value.port < 0x10000
    ensures over <==> !FitsMessage(m)
    ensures !over ==>
              && fresh(pipe) && pos <= pipe.Length && pipe[..pos] == StartPieces(m, table) + AllPieces(m.headers)
              && size == Length(pipe[..pos]) + Empties(m.headers)
  {
    hide StartPieces, HeaderPieces, Length, Grown;
    pipe := new Piece[PIPE_SIZE];
    pos, size := Begin(m, table, pipe);
    over := false;
    ghost var start := pipe[..pos];
    for k := 0 to |m.headers|
      invariant !over && fresh(pipe) && pos <= pipe.Length
      invariant Fits(m.headers[k..], pipe.Length, pos) <==> FitsMessage(m)
      invariant pipe[..pos] == start + AllPieces(m.headers[..k])
      invariant size == Length(pipe[..pos]) + Empties(m.headers[..k])
    {
      ghost var was := pipe[..pos];
      assert m.headers[k..][0] == m.headers[k] && m.headers[k..][1..] == m.headers[k + 1..];
      assert m.headers[..k + 1][..k] == m.headers[..k];
      var added: nat;
      pipe, pos, added, over := AddHeader(pipe, pos, m.headers[k]);
      if over { return; }
      LengthConcat(was, HeaderPieces(m.headers[k]));
      size := size + added;
      Assoc(start, AllPieces(m.headers[..k]), HeaderPieces(m.headers[k]));
    }
    assert m.headers[..|m.headers|] == m.headers;
  }

  /** The start line. */
  method Begin(m: Msg, table: nat -> Option<string>, pipe: array<Piece>) returns (pos: nat, size: nat)
    requires pipe.Length == PIPE_SIZE && (m.type_.RESPONSE? ==> Reason(m, table).Some?)
    requires m.uri.Some? ==> m.uri.value.port < 0x10000
    modifies pipe
    ensures pos == Head(m) && pipe[..pos] == StartPieces(m, table) && size == Length(StartPieces(m, table))
  {
    if m.type_.RESPONSE? {
      var code := Code(m.status);
      var version := if m.version.Some? then m.version.value else "1.1";
      var reason := if m.reason.Some? then m.reason.value else table(m.status % 0x10000).value;
      var over := Store(pipe, 0, [Str("HTTP"), Str("/"), Str(version), Str(" "), Str(code), Str(" "), Str(reason),
        EndOfLine]);
      pos, size := 8, |version| + |code| + |reason| + 9;
    } else if m.type_.REQUEST? {
      var target := "/";
      if m.target.Some? {
        target := m.target.value;
      } else if m.uri.Some? {
        target := Stringify(m.uri.value, ALL);
      }
      var method_ := if m.method_.Some? then m.method_.value else "GET";
      var version := if m.version.Some? then m.version.value else "1.1";
      var over := Store(pipe, 0, [Str(method_), Str(" "), Str(target), Str(" "), Str("HTTP"), Str("/"), Str(version),
        EndOfLine]);
      pos, size := 8, |method_| + |target| + |version| + 9;
    } else {
      pos, size := 0, 0;
    }
    assert pipe[..pos] == StartPieces(m, table);
    hide Code, Target, Reason;
    StartLength(m, table);
  }

  lemma StartLength(m: Msg, table: nat -> Option<string>)
    ensures Length(StartPieces(m, table)) ==
            match m.type_
            case RESPONSE => |Or(m.version, "1.1")| + |Code(m.status)| + |Or(Reason(m, table), "")| + 9
            case REQUEST => |Or(m.method_, "GET")| + |Target(m)| + |Or(m.version, "1.1")| + 9
            case MESSAGE => 0
  {
    hide Code, Target, Reason, Or;
    var ps := StartPieces(m, table);
    if !m.type_.MESSAGE? {
      EightWritten(ps);
      WrittenLength(ps, false);
    }
  }

  // ---- The writing pass -----------------------------------------------------------------------

  lemma CaseStep(s: string, k: nat, up: bool)
    requires k < |s|
    ensures Case(s[k..], up)
         == [if NT(s[k]).Letter? && up then NT(s[k]).upper else s[k]] + Case(s[k + 1..], Switch(s[k], up))
  {
    assert s[k..][1..] == s[k + 1..];
  }

  /** One character of the transform. */
  method CapitaliseOne(c: char, given: bool) returns (d: char, up: bool)
    ensures up == Switch(c, given) && d == if NT(c).Letter? && given then NT(c).upper else c
  {
    d, up := c, given;
    match NT(c)
    case Other =>
    case Punct => up := true;
    case Letter(u) =>
      if up { d := u; }
      up := false;
  }

  /** The transform in place, on the characters from `from` to `to`. */
  method Capitalise(msg: array<char>, from: nat, to: nat)
    requires from <= to <= msg.Length
    modifies msg
    ensures msg[..from] == old(msg[..from]) && msg[from..to] == Case(old(msg[from..to]), true)
  {
    hide Case, NT, Switch;
    var up := true;
    ghost var s, done := msg[from..to], "";
    for i := from to to
      invariant forall j | 0 <= j < from :: msg[j] == old(msg[j])
      invariant forall j | i <= j < to :: msg[j] == s[j - from]
      invariant |done| == i - from && forall j | 0 <= j < |done| :: msg[from + j] == done[j]
      invariant done + Case(s[i - from..], up) == Case(s, true)
    {
      CaseStep(s, i - from, up);
      var d: char;
      d, up := CapitaliseOne(msg[i], up);
      msg[i] := d;
      Assoc(done, [d], Case(s[i - from + 1..], up));
      done := done + [d];
    }
    CaseNone(s[to - from..], up);
    assert msg[from..to] == done;
  }

  lemma CaseNone(s: string, up: bool)
    requires s == ""
    ensures Case(s, up) == ""
  {
  }

  /** One entry of the pipe is copied, and capitalised when it is a header name. */
  method WritePiece(msg: array<char>, offset: nat, p: Piece, isHeader: bool) returns (next: nat)
    requires offset + |Chars(p)| <= msg.Length
    modifies msg
    ensures next == offset + |Chars(p)|
    ensures msg[..next] == old(msg[..offset]) + if isHeader then Case(Chars(p), true) else Chars(p)
  {
    hide Case, Chars;
    ghost var was := msg[..offset];
    next := Put(msg, offset, Chars(p));
    assert msg[..offset] == was && msg[offset..next] == Chars(p);
    if isHeader { Capitalise(msg, offset, next); }
    assert msg[..next] == msg[..offset] + msg[offset..next];
  }

  /** The writing pass over the pipe: every copy falls inside the measured buffer. */
  method Write(pipe: array<Piece>, pos: nat, msg: array<char>) returns (offset: nat)
    requires pos <= pipe.Length && Length(pipe[..pos]) <= msg.Length
    modifies msg
    ensures offset == Length(pipe[..pos]) && msg[..offset] == Written(pipe[..pos], false)
  {
    offset := 0;
    var isHeader := false;
    ghost var ps := pipe[..pos];
    assert Length(ps[..0]) == 0 && Written(ps[..0], false) == "";
    hide Written, Length, Case, Ends;
    for p := 0 to pos
      invariant pipe[..pos] == ps && offset == Length(ps[..p]) <= msg.Length
      invariant msg[..offset] == Written(ps[..p], false) && isHeader == Ends(ps[..p], false)
    {
      WriteStep(ps, p);
      offset := WritePiece(msg, offset, pipe[p], isHeader);
      isHeader := false;
      if pipe[p].EndOfLine? { isHeader := true; }
    }
    assert ps[..pos] == ps;
  }

  lemma WriteStep(ps: seq<Piece>, p: nat)
    requires p < |ps|
    ensures Length(ps[..p + 1]) == Length(ps[..p]) + |Chars(ps[p])| <= Length(ps)
    ensures Written(ps[..p + 1], false)
         == Written(ps[..p], false) + if Ends(ps[..p], false) then Case(Chars(ps[p]), true) else Chars(ps[p])
    ensures Ends(ps[..p + 1], false) == ps[p].EndOfLine?
  {
    hide Written, Case;
    assert ps[..p + 1] == ps[..p] + [ps[p]] && ps == ps[..p + 1] + ps[p + 1..];
    LengthConcat(ps[..p + 1], ps[p + 1..]);
    LengthConcat(ps[..p], [ps[p]]);
    LengthTwo(ps[p], ps[p]);
    WrittenSnoc(ps[..p], ps[p]);
  }

  /** A response has a reason phrase of its own or one in the table. */
  predicate HasReason(m: Msg, table: nat -> Option<string>) { m.type_.RESPONSE? ==> Reason(m, table).Some? }

  /** pion_http_message_build.  There is no text exactly when the source would follow a null pointer or
      write outside its pipe.  Each header without values leaves one unwritten character at the end. */
  method Build(m: Msg, table: nat -> Option<string>) returns (r: Option<string>)
    requires m.uri.Some? ==> m.uri.value.port < 0x10000
    ensures r.Some? <==> HasReason(m, table) && FitsMessage(m)
    ensures r.Some? ==> Text(m, table) <= r.value && |r.value| == |Text(m, table)| + Empties(m.headers)
    ensures r.Some? && (forall i | 0 <= i < |m.headers| :: m.headers[i].values != []) ==> r.value == Text(m, table)
  {
    hide StartPieces, AllPieces, Lines, StartLine, Written, Length, Empties, FitsMessage, Reason;
    if m.type_.RESPONSE? && m.reason.None? && table(m.status % 0x10000).None? {
      NoReason(m, table);
      return None;
    }
    NoReason(m, table);
    NoEmpties(m.headers);
    HeadersWritten(m.headers, !m.type_.MESSAGE?);
    StartWritten(m, table);
    WrittenConcat(StartPieces(m, table), AllPieces(m.headers), false);
    var pipe, pos, size, over := Collect(m, table);
    if over { return None; }
    size := size + (if m.body.Some? then |m.body.value| + 2 else 2);
    var msg := new char[size];
    var offset := Write(pipe, pos, msg);
    offset := Put(msg, offset, CRLF);
    if m.body.Some? { offset := Put(msg, offset, m.body.value); }
    assert msg[..offset] == Text(m, table) && offset + Empties(m.headers) == size;
    r := Some(msg[..]);
  }

  lemma NoReason(m: Msg, table: nat -> Option<string>)
    ensures Reason(m, table).None? <==> m.reason.None? && table(m.status % 0x10000).None?
  {
  }

  lemma {:induction false} NoEmpties(hs: seq<Header>)
    ensures Empties(hs) == 0 <==> forall i | 0 <= i < |hs| :: hs[i].values != []
  {
    if hs != [] { NoEmpties(hs[..|hs| - 1]); }
  }
}
