/** Assembling an HTTP message: measure and collect the pieces, then write and capitalise. */
module Http {
  import opened Values
  import opened Headers
  import opened Uris
  import opened Concatenation

  datatype Type = MESSAGE | REQUEST | RESPONSE

  datatype Msg = Msg(type_: Type, headers: seq<Header>, version: Option<string>, body: Option<string>,
                     method_: Option<string>, target: Option<string>, uri: Option<Uri>,
                     status: nat, reason: Option<string>)

  const CRLF := "\r\n"

  function Or(s: Option<string>, default_: string): string { if s.Some? then s.value else default_ }

  // ---- The case transform ---------------------------------------------------------------------

  datatype Class = Other | Punct | Letter(upper: char)

  /** transform_map. */
  function NT(c: char): Class {
    if '!' <= c <= '/' || ':' <= c <= '@' || '[' <= c <= '`' || '{' <= c <= '~' then Punct
    else if 'a' <= c <= 'z' then Letter(c - ' ')
    else Other
  }

  /** Visible characters that are neither digits nor letters are punctuation; letters that are not capitals
      have a capital. */
  lemma Classes(c: char)
    ensures NT(c).Punct? <==> ' ' < c <= '~' && !('0' <= c <= '9') && !('A' <= c <= 'Z') && !('a' <= c <= 'z')
    ensures NT(c).Letter? <==> 'a' <= c <= 'z'
    ensures NT(c).Letter? ==> 'A' <= NT(c).upper <= 'Z' && NT(c).upper + ' ' == c
  {
  }

  /** Is the next letter to become upper case, after `c`? */
  function Switch(c: char, up: bool): bool { NT(c).Punct? || (NT(c).Other? && up) }

  /** What the transform makes of a name. */
  function Case(s: string, up: bool): (r: string)
    ensures |r| == |s|
  {
    if s == "" then ""
    else [if NT(s[0]).Letter? && up then NT(s[0]).upper else s[0]] + Case(s[1..], Switch(s[0], up))
  }

  /** No letter comes before `i`, since the start or since the last punctuation character. */
  predicate Opens(s: string, i: nat, up: bool)
    requires i <= |s|
  {
    && (forall j | 0 <= j < i && NT(s[j]).Letter? :: exists p :: j < p < i && NT(s[p]).Punct?)
    && (up || exists p :: 0 <= p < i && NT(s[p]).Punct?)
  }

  lemma OpensTail(s: string, i: nat, up: bool)
    requires 0 < i <= |s|
    ensures Opens(s, i, up) == Opens(s[1..], i - 1, Switch(s[0], up))
  {
    var t := s[1..];
    var up' := Switch(s[0], up);
    if Opens(s, i, up) {
      forall j | 0 <= j < i - 1 && NT(t[j]).Letter? ensures exists p :: j < p < i - 1 && NT(t[p]).Punct? {
        assert NT(s[j + 1]).Letter?;
        var p :| j + 1 < p < i && NT(s[p]).Punct?;
        assert NT(t[p - 1]).Punct?;
      }
      if !up' {
        var p :| 0 <= p < i && NT(s[p]).Punct? && p > 0;
        assert NT(t[p - 1]).Punct?;
      }
      assert Opens(t, i - 1, up');
    }
    if Opens(t, i - 1, up') {
      forall j | 0 <= j < i && NT(s[j]).Letter? ensures exists p :: j < p < i && NT(s[p]).Punct? {
        if j == 0 {
          var p :| 0 <= p < i - 1 && NT(t[p]).Punct?;
          assert NT(s[p + 1]).Punct?;
        } else {
          assert NT(t[j - 1]).Letter?;
          var p :| j - 1 < p < i - 1 && NT(t[p]).Punct?;
          assert NT(s[p + 1]).Punct?;
        }
      }
      if !up && !NT(s[0]).Punct? {
        var p :| 0 <= p < i - 1 && NT(t[p]).Punct?;
        assert NT(s[p + 1]).Punct?;
      }
    }
  }

  /** A lower-case letter becomes upper case exactly when no letter precedes it since the start or the
      last punctuation character; every other character stays. */
  lemma {:induction false} CaseAt(s: string, up: bool, i: nat)
    requires i < |s|
    ensures Case(s, up)[i] == if NT(s[i]).Letter? && Opens(s, i, up) then NT(s[i]).upper else s[i]
  {
    if i > 0 {
      OpensTail(s, i, up);
      CaseAt(s[1..], Switch(s[0], up), i - 1);
    }
  }

  lemma {:induction false} LowerCase(s: string, up: bool)
    ensures Lower(Case(s, up)) == Lower(s)
  {
    forall i | 0 <= i < |s| ensures Lower(Case(s, up))[i] == Lower(s)[i] { CaseAt(s, up, i); }
  }

  // ---- The text of a message ------------------------------------------------------------------

  function Joined(values: seq<string>): string {
    if values == [] then "" else if |values| == 1 then values[0] else values[0] + "," + Joined(values[1..])
  }

  /** A header line; a name without values has lost its colon. */
  function Line(name: string, values: seq<string>): string {
    if values == [] then name + CRLF else name + ": " + Joined(values) + CRLF
  }

  /** The header lines; `up` says whether the first name is capitalised. */
  function Lines(hs: seq<Header>, up: bool): string {
    if hs == [] then ""
    else Line(if up then Case(hs[0].name, true) else hs[0].name, hs[0].values) + Lines(hs[1..], true)
  }

  /** strpprintf(4, "%d", status): at most four characters; the status is an unsigned int. */
  function Code(status: nat): string {
    var s := if status < 0x8000_0000 then Decimal(status)
             else if status < 0x1_0000_0000 then "-" + Decimal(0x1_0000_0000 - status) else "";
    if |s| > 4 then s[..4] else s
  }

  /** The request target: as given, or the printed URI, or a slash. */
  function Target(m: Msg): string {
    if m.target.Some? then m.target.value
    else if m.uri.Some? then Printed(Selected(m.uri.value, ALL))
    else "/"
  }

  /** The reason phrase: as given, or from the table of status codes. */
  function Reason(m: Msg, table: nat -> Option<string>): Option<string> {
    if m.reason.Some? then m.reason else table(m.status % 0x10000)
  }

  function StartLine(m: Msg, table: nat -> Option<string>): string {
    match m.type_
    case RESPONSE => "HTTP" + "/" + Or(m.version, "1.1") + " " + Code(m.status) + " " + Or(Reason(m, table), "") + CRLF
    case REQUEST => Or(m.method_, "GET") + " " + Target(m) + " " + "HTTP" + "/" + Or(m.version, "1.1") + CRLF
    case MESSAGE => ""
  }

  /** Section 3 of RFC 7230: start line, header lines, an empty line, the body. */
  function Text(m: Msg, table: nat -> Option<string>): string {
    StartLine(m, table) + Lines(m.headers, !m.type_.MESSAGE?) + CRLF + Or(m.body, "")
  }

  // ---- The pieces -----------------------------------------------------------------------------

  /** An entry of the pipe: the shared end-of-line string, which the writer knows by its address, or
      any other string. */
  datatype Piece = Str(s: string) | EndOfLine

  function Chars(p: Piece): string { if p.Str? then p.s else CRLF }

  function Length(ps: seq<Piece>): nat {
    if ps == [] then 0 else Length(ps[..|ps| - 1]) + |Chars(ps[|ps| - 1])|
  }

  function StartPieces(m: Msg, table: nat -> Option<string>): seq<Piece> {
    match m.type_
    case RESPONSE => [Str("HTTP"), Str("/"), Str(Or(m.version, "1.1")), Str(" "), Str(Code(m.status)), Str(" "),
                      Str(Or(Reason(m, table), "")), EndOfLine]
    case REQUEST => [Str(Or(m.method_, "GET")), Str(" "), Str(Target(m)), Str(" "), Str("HTTP"), Str("/"),
                     Str(Or(m.version, "1.1")), EndOfLine]
    case MESSAGE => []
  }

  function ValuePieces(values: seq<string>): seq<Piece> {
    if values == [] then [] else [Str(values[0]), Str(",")] + ValuePieces(values[1..])
  }

  /** A header's entries: the comma after the last value has become the end of the line.  Without values
      that is the colon. */
  function HeaderPieces(h: Header): seq<Piece> {
    var ps := [Str(h.name), Str(": ")] + ValuePieces(h.values);
    ps[..|ps| - 1] + [EndOfLine]
  }

  function AllPieces(hs: seq<Header>): seq<Piece> {
    if hs == [] then [] else AllPieces(hs[..|hs| - 1]) + HeaderPieces(hs[|hs| - 1])
  }

  /** What the writer makes of some entries: a name that follows an end of line is capitalised. */
  function Written(ps: seq<Piece>, isHeader: bool): string {
    if ps == [] then ""
    else (if isHeader then Case(Chars(ps[0]), true) else Chars(ps[0])) + Written(ps[1..], ps[0].EndOfLine?)
  }

  function Ends(ps: seq<Piece>, isHeader: bool): bool {
    if ps == [] then isHeader else ps[|ps| - 1].EndOfLine?
  }

  lemma {:induction false} WrittenConcat(a: seq<Piece>, b: seq<Piece>, isHeader: bool)
    ensures Written(a + b, isHeader) == Written(a, isHeader) + Written(b, Ends(a, isHeader))
  {
    hide Case;
    if a == [] {
      assert a + b == b;
    } else {
      assert (a + b)[1..] == a[1..] + b;
      WrittenConcat(a[1..], b, a[0].EndOfLine?);
      var x := if isHeader then Case(Chars(a[0]), true) else Chars(a[0]);
      Assoc(x, Written(a[1..], a[0].EndOfLine?), Written(b, Ends(a, isHeader)));
    }
  }

  /** The measured length is the written length. */
  lemma {:induction false} WrittenLength(ps: seq<Piece>, isHeader: bool)
    ensures |Written(ps, isHeader)| == Length(ps)
  {
    if ps != [] {
      var a, b := ps[..|ps| - 1], [ps[|ps| - 1]];
      assert ps == a + b;
      WrittenConcat(a, b, isHeader);
      WrittenLength(a, isHeader);
    }
  }

  lemma {:induction false} ValuesWritten(values: seq<string>)
    requires values != []
    ensures var ps := ValuePieces(values);
            ps != [] && Written(ps[..|ps| - 1] + [EndOfLine], false) == Joined(values) + CRLF
  {
    var ps := ValuePieces(values);
    if |values| == 1 {
      assert ps[..|ps| - 1] + [EndOfLine] == [Str(values[0]), EndOfLine];
      assert [Str(values[0]), EndOfLine][1..] == [EndOfLine];
      assert Written([EndOfLine], false) == CRLF + "";
    } else {
      var rest := ValuePieces(values[1..]);
      ValuesWritten(values[1..]);
      var tail := rest[..|rest| - 1] + [EndOfLine];
      assert ps[..|ps| - 1] + [EndOfLine] == [Str(values[0])] + ([Str(",")] + tail);
      assert ([Str(values[0])] + ([Str(",")] + tail))[1..] == [Str(",")] + tail && ([Str(",")] + tail)[1..] == tail;
    }
  }

  lemma HeaderWritten(h: Header, up: bool)
    ensures Written(HeaderPieces(h), up) == Line(if up then Case(h.name, true) else h.name, h.values)
    ensures Ends(HeaderPieces(h), up)
  {
    hide Case;
    if h.values == [] {
      BareWritten(h, up);
      return;
    }
    var ps := ValuePieces(h.values);
    ValuesWritten(h.values);
    var tail := ps[..|ps| - 1] + [EndOfLine];
    PiecesOf(h, tail);
    hide HeaderPieces, ValuePieces, Joined, Written, Line;
    FirstWritten(Str(h.name), [Str(": ")] + tail, up);
    FirstWritten(Str(": "), tail, false);
    LineOf(if up then Case(h.name, true) else h.name, h.values);
  }

  lemma LineOf(name: string, values: seq<string>)
    requires values != []
    ensures name + (": " + (Joined(values) + CRLF)) == Line(name, values)
  {
  }

  lemma PiecesOf(h: Header, tail: seq<Piece>)
    requires h.values != [] && ValuePieces(h.values) != []
    requires tail == ValuePieces(h.values)[..|ValuePieces(h.values)| - 1] + [EndOfLine]
    ensures HeaderPieces(h) == [Str(h.name)] + ([Str(": ")] + tail)
  {
  }

  lemma FirstWritten(p: Piece, ps: seq<Piece>, up: bool)
    requires p.Str?
    ensures Written([p] + ps, up) == (if up then Case(p.s, true) else p.s) + Written(ps, false)
    ensures ps != [] ==> Ends([p] + ps, up) == Ends(ps, false)
  {
    assert ([p] + ps)[1..] == ps;
  }

  lemma BareWritten(h: Header, up: bool)
    requires h.values == []
    ensures Written(HeaderPieces(h), up) == (if up then Case(h.name, true) else h.name) + CRLF
    ensures Ends(HeaderPieces(h), up)
  {
    hide Case;
    assert HeaderPieces(h) == [Str(h.name)] + [EndOfLine];
    WrittenConcat([Str(h.name)], [EndOfLine], up);
    assert [EndOfLine][1..] == [] && Written([EndOfLine], false) == CRLF + "";
    assert [Str(h.name)][1..] == [] && Written([Str(h.name)], up) == (if up then Case(h.name, true) else h.name) + "";
  }

  lemma {:induction false} LinesSnoc(hs: seq<Header>, h: Header, up: bool)
    ensures Lines(hs + [h], up)
         == Lines(hs, up) + Line(if hs != [] || up then Case(h.name, true) else h.name, h.values)
  {
    if hs == [] {
      assert ([] + [h])[1..] == [] && Lines([], true) == "";
    } else {
      assert (hs + [h])[1..] == hs[1..] + [h];
      LinesSnoc(hs[1..], h, true);
    }
  }

  lemma {:induction false} HeadersWritten(hs: seq<Header>, up: bool)
    ensures Written(AllPieces(hs), up) == Lines(hs, up) && Ends(AllPieces(hs), up) == (hs != [] || up)
  {
    if hs != [] {
      var front, h := hs[..|hs| - 1], hs[|hs| - 1];
      assert hs == front + [h];
      HeadersWritten(front, up);
      WrittenConcat(AllPieces(front), HeaderPieces(h), up);
      HeaderWritten(h, front != [] || up);
      LinesSnoc(front, h, up);
    }
  }

  lemma StartWritten(m: Msg, table: nat -> Option<string>)
    ensures Written(StartPieces(m, table), false) == StartLine(m, table)
    ensures Ends(StartPieces(m, table), false) == !m.type_.MESSAGE?
  {
    var ps := StartPieces(m, table);
    if !m.type_.MESSAGE? {
      hide Code, Target, Reason, Or;
      EightWritten(ps);
    }
  }

  lemma EightWritten(ps: seq<Piece>)
    requires |ps| == 8 && ps[7].EndOfLine? && forall i | 0 <= i < 7 :: ps[i].Str?
    ensures Written(ps, false)
         == ps[0].s + ps[1].s + ps[2].s + ps[3].s + ps[4].s + ps[5].s + ps[6].s + CRLF
  {
    hide Written, Chars;
    assert Written(ps[..0], false) == "" by { WrittenNone(ps[..0]); }
    FrontWritten(ps, 0);
    assert Written(ps[..1], false) == ps[0].s;
    FrontWritten(ps, 1); FrontWritten(ps, 2); FrontWritten(ps, 3);
    assert Written(ps[..4], false) == ps[0].s + ps[1].s + ps[2].s + ps[3].s;
    FrontWritten(ps, 4); FrontWritten(ps, 5); FrontWritten(ps, 6); FrontWritten(ps, 7);
    assert ps[..8] == ps;
  }

  lemma WrittenNone(ps: seq<Piece>)
    requires ps == []
    ensures Written(ps, false) == ""
  {
  }

  lemma FrontWritten(ps: seq<Piece>, k: nat)
    requires k < |ps| && forall i | 0 <= i < k :: ps[i].Str?
    ensures Written(ps[..k + 1], false) == Written(ps[..k], false) + if ps[k].Str? then ps[k].s else CRLF
  {
    assert ps[..k + 1] == ps[..k] + [ps[k]];
    WrittenSnoc(ps[..k], ps[k]);
  }

  lemma WrittenSnoc(ps: seq<Piece>, p: Piece)
    ensures Written(ps + [p], false) == Written(ps, false) + if Ends(ps, false) then Case(Chars(p), true) else Chars(p)
  {
    WrittenConcat(ps, [p], false);
  }
}
