/** Reading the text of a message back. */
module HttpReading {
  import opened Values
  import opened Headers
  import opened Http
  import opened Uris
  import UriReading

  datatype Halves = Halves(left: string, right: Option<string>)

  /** Splits at the first occurrence of the two-character delimiter `d`. */
  function SplitAt(s: string, d: string): Halves
    requires |d| == 2
  {
    if |s| < 2 then Halves(s, None)
    else if s[..2] == d then Halves("", Some(s[2..]))
    else Halves([s[0]] + SplitAt(s[1..], d).left, SplitAt(s[1..], d).right)
  }

  lemma {:induction false} SplitFound(a: string, d: string, b: string)
    requires |d| == 2 && d[0] !in a
    ensures SplitAt(a + d + b, d) == Halves(a, Some(b))
  {
    if a == "" {
      assert (a + d + b)[..2] == d && (a + d + b)[2..] == b;
    } else {
      assert (a + d + b)[1..] == a[1..] + d + b && (a + d + b)[..2][0] == a[0];
      SplitFound(a[1..], d, b);
    }
  }

  predicate NoBreak(s: string) { '\r' !in s && '\n' !in s }

  /** Names are lower case, without colon and line breaks; values are without line breaks. */
  predicate Sendable(h: Header) {
    && h.name == Lower(h.name) && NoBreak(h.name) && ':' !in h.name
    && h.values != [] && forall i | 0 <= i < |h.values| :: NoBreak(h.values[i])
  }

  lemma {:induction false} JoinedNoBreak(values: seq<string>)
    requires forall i | 0 <= i < |values| :: NoBreak(values[i])
    ensures NoBreak(Joined(values))
  {
    if |values| > 1 { JoinedNoBreak(values[1..]); }
  }

  lemma CaseFree(s: string, c: char)
    requires c !in s && !('A' <= c <= 'Z')
    ensures c !in Case(s, true)
  {
    var r := Case(s, true);
    forall i | 0 <= i < |r| ensures r[i] != c { CaseAt(s, true, i); }
  }

  /** The fields of a block, and what follows the empty line. */
  function ReadBlock(s: string): (seq<(string, string)>, string)
    decreases |s|
  {
    var l := SplitAt(s, CRLF);
    if l.right.None? || |l.right.value| >= |s| then ([], s)
    else if l.left == "" then ([], l.right.value)
    else
      var h := SplitAt(l.left, ": ");
      var (fields, rest) := ReadBlock(l.right.value);
      ([(h.left, Or(h.right, ""))] + fields, rest)
  }

  /** The fields as they are sent: behind a line end, names are capitalised. */
  function Fields(hs: seq<Header>, up: bool): (fields: seq<(string, string)>)
    ensures |fields| == |hs|
  {
    if hs == [] then []
    else [(if up then Case(hs[0].name, true) else hs[0].name, Joined(hs[0].values))] + Fields(hs[1..], true)
  }

  /** What is sent is the stored name, but for the case of its letters, and the stored values. */
  lemma {:induction false} FieldsAre(hs: seq<Header>, up: bool, i: nat)
    requires i < |hs| && forall j | 0 <= j < |hs| :: Sendable(hs[j])
    ensures var (name, value) := Fields(hs, up)[i];
            && Lower(name) == hs[i].name && (name == Case(hs[i].name, true) || (i == 0 && !up && name == hs[i].name))
            && (Plain(hs[i].values) ==> SplitAll(value) == hs[i].values)
  {
    if i > 0 {
      FieldsAre(hs[1..], true, i - 1);
    } else {
      LowerCase(hs[0].name, true);
      if Plain(hs[0].values) { JoinedReads(hs[0].values); }
    }
  }

  predicate Plain(values: seq<string>) { forall i | 0 <= i < |values| :: ',' !in values[i] }

  /** Splits at the commas. */
  function SplitAll(s: string): seq<string>
    decreases |s|
  {
    var h := UriReading.Cut(s, ',');
    if h.right.None? || |h.right.value| >= |s| then [s] else [h.left] + SplitAll(h.right.value)
  }

  /** Values without commas read back. */
  lemma {:induction false} JoinedReads(values: seq<string>)
    requires values != [] && Plain(values)
    ensures SplitAll(Joined(values)) == values
  {
    hide UriReading.Cut;
    if |values| == 1 {
      UriReading.CutNone(values[0], ',');
    } else {
      JoinedReads(values[1..]);
      var rest := Joined(values[1..]);
      assert Joined(values) == values[0] + [','] + rest;
      UriReading.CutFound(values[0], ',', rest);
    }
  }

  /** One line reads back as the name that was sent and the joined values. */
  lemma LineReads(h: Header, up: bool, rest: string)
    requires Sendable(h)
    ensures var name := if up then Case(h.name, true) else h.name;
            var s := Line(name, h.values) + rest;
            ReadBlock(s) == ([(name, Joined(h.values))] + ReadBlock(rest).0, ReadBlock(rest).1)
  {
    var name := if up then Case(h.name, true) else h.name;
    CaseFree(h.name, '\r');
    CaseFree(h.name, ':');
    JoinedNoBreak(h.values);
    hide SplitAt, Case;
    var line := name + ": " + Joined(h.values);
    var s := Line(name, h.values) + rest;
    assert s == line + CRLF + rest;
    SplitFound(line, CRLF, rest);
    SplitFound(name, ": ", Joined(h.values));
    assert line != "" && |rest| < |s|;
  }

  /** The header block of a message, followed by any body, reads back as its fields and the body. */
  lemma {:induction false} BlockReads(hs: seq<Header>, up: bool, body: string)
    requires forall i | 0 <= i < |hs| :: Sendable(hs[i])
    ensures ReadBlock(Lines(hs, up) + CRLF + body) == (Fields(hs, up), body)
  {
    if hs == [] {
      assert Lines(hs, up) + CRLF + body == "" + CRLF + body;
      SplitFound("", CRLF, body);
    } else {
      var name := if up then Case(hs[0].name, true) else hs[0].name;
      var rest := Lines(hs[1..], true) + CRLF + body;
      assert Lines(hs, up) + CRLF + body == Line(name, hs[0].values) + rest;
      LineReads(hs[0], up, rest);
      BlockReads(hs[1..], true, body);
    }
  }

  // ---- The start line -------------------------------------------------------------------------

  /** The first line, cut at its first two spaces, and what follows it. */
  datatype Start = Start(first: string, second: string, third: string, rest: string)

  function ReadStart(s: string): Start {
    var l := SplitAt(s, CRLF);
    var a := UriReading.Cut(l.left, ' ');
    var b := UriReading.Cut(Or(a.right, ""), ' ');
    Start(a.left, b.left, Or(b.right, ""), Or(l.right, ""))
  }

  lemma StartReads(a: string, b: string, c: string, rest: string)
    requires ' ' !in a && ' ' !in b && NoBreak(a) && NoBreak(b) && NoBreak(c)
    ensures ReadStart(a + " " + b + " " + c + CRLF + rest) == Start(a, b, c, rest)
  {
    var line := a + " " + b + " " + c;
    assert line == a + [' '] + (b + [' '] + c);
    hide SplitAt, UriReading.Cut;
    SplitFound(line, CRLF, rest);
    UriReading.CutFound(a, ' ', b + [' '] + c);
    UriReading.CutFound(b, ' ', c);
  }

  lemma {:induction false} DigitsPlain(n: nat)
    ensures ' ' !in Decimal(n) && NoBreak(Decimal(n))
  {
    DecimalReads(n);
  }

  predicate Word(s: string) { ' ' !in s && NoBreak(s) }

  predicate SendableAll(m: Msg) { forall i | 0 <= i < |m.headers| :: Sendable(m.headers[i]) }

  /** The text of a response, read with section 3.1.2 of RFC 7230 in mind: the version, a code that is the
      status, the reason phrase, then the headers and the body. */
  lemma ResponseReads(m: Msg, table: nat -> Option<string>, version: string, phrase: string)
    requires m.type_.RESPONSE? && m.status < 10000 && SendableAll(m)
    requires version == (if m.version.Some? then m.version.value else "1.1") && Word(version)
    requires Some(phrase) == (if m.reason.Some? then m.reason else table(m.status)) && NoBreak(phrase)
    ensures var r := ReadStart(Text(m, table));
            && r.first == "HTTP/" + version
            && AllDigits(r.second) && ValueOf(r.second) == m.status
            && r.third == phrase
            && ReadBlock(r.rest) == (Fields(m.headers, true), if m.body.Some? then m.body.value else "")
  {
    DigitsPlain(m.status);
    DecimalReads(m.status);
    ShortCode(m.status);
    var body, line := Or(m.body, ""), ("HTTP/" + version) + " " + Decimal(m.status) + " " + phrase;
    assert StartLine(m, table) == line + CRLF by { assert "HTTP" + "/" == "HTTP/"; }
    hide Decimal, Lines, ReadBlock, ReadStart, StartLine, Code, Reason;
    Regroup(line, Lines(m.headers, true), body);
    StartReads("HTTP/" + version, Decimal(m.status), phrase, Lines(m.headers, true) + CRLF + body);
    BlockReads(m.headers, true, body);
  }

  lemma Regroup(line: string, lines: string, body: string)
    ensures line + CRLF + lines + CRLF + body == line + CRLF + (lines + CRLF + body)
  {
  }

  lemma ShortCode(status: nat)
    requires status < 10000
    ensures Code(status) == Decimal(status)
  {
    WidthOver(status, 4);
    assert Pow10(4) == 10 * Pow10(3) == 100 * Pow10(2) == 1000 * Pow10(1) == 10000 * Pow10(0);
  }

  /** No piece of the URI has a space or a line break. */
  predicate Wordy(u: Uri) {
    && (u.scheme.Some? ==> Word(u.scheme.value)) && (u.user.Some? ==> Word(u.user.value))
    && (u.pass.Some? ==> Word(u.pass.value)) && (u.host.Some? ==> Word(u.host.value))
    && (u.path.Some? ==> Word(u.path.value)) && (u.query.Some? ==> Word(u.query.value))
    && (u.fragment.Some? ==> Word(u.fragment.value))
  }

  lemma PrintedWord(u: Uri)
    requires Wordy(u)
    ensures Word(Printed(u))
  {
    DigitsPlain(u.port);
    hide Decimal;
    assert Word(UserInfo(u)) && Word(HostPort(u)) && Word(Tail(u));
    assert Word(After(u.scheme, "://")) && Word(Before(u.path, ""));
  }

  /** The text of a request: the method, a target that is the one given, or reads back as the URI given, or is
      a slash, and the version (section 3.1.1 of RFC 7230); then the headers and the body. */
  lemma RequestReads(m: Msg, table: nat -> Option<string>, method_: string, version: string)
    requires m.type_.REQUEST? && SendableAll(m)
    requires method_ == (if m.method_.Some? then m.method_.value else "GET") && Word(method_)
    requires version == (if m.version.Some? then m.version.value else "1.1") && NoBreak(version)
    requires if m.target.Some? then Word(m.target.value)
             else m.uri.Some? ==> Wordy(m.uri.value) && UriReading.WellFormed(m.uri.value)
    ensures var r := ReadStart(Text(m, table));
            && r.first == method_
            && (if m.target.Some? then r.second == m.target.value
                else if m.uri.Some? then UriReading.ReadUri(r.second) == m.uri.value
                else r.second == "/")
            && r.third == "HTTP/" + version
            && ReadBlock(r.rest) == (Fields(m.headers, true), if m.body.Some? then m.body.value else "")
  {
    if m.target.None? && m.uri.Some? {
      PrintedWord(m.uri.value);
      UriReading.AllSelected(m.uri.value);
      UriReading.PrintedReads(m.uri.value);
    }
    var body, target := Or(m.body, ""), Target(m);
    assert Word(target) by { hide Printed; }
    hide Target, Printed, UriReading.ReadUri, UriReading.WellFormed, Wordy;
    var line := method_ + " " + target + " " + ("HTTP/" + version);
    assert StartLine(m, table) == line + CRLF by { RequestLine(method_, target, version); }
    hide Lines, ReadBlock, ReadStart, StartLine;
    Regroup(line, Lines(m.headers, true), body);
    StartReads(method_, target, "HTTP/" + version, Lines(m.headers, true) + CRLF + body);
    BlockReads(m.headers, true, body);
  }

  lemma RequestLine(method_: string, target: string, version: string)
    ensures method_ + " " + target + " " + "HTTP" + "/" + version + CRLF
         == method_ + " " + target + " " + ("HTTP/" + version) + CRLF
  {
    assert "HTTP" + "/" + version == "HTTP/" + version;
    var front := method_ + " " + target + " ";
    assert front + ("HTTP" + "/" + version) == front + "HTTP" + "/" + version;
  }

  /** The text of a message that is neither has no start line. */
  lemma BareReads(m: Msg, table: nat -> Option<string>)
    requires m.type_.MESSAGE? && SendableAll(m)
    ensures ReadBlock(Text(m, table)) == (Fields(m.headers, false), if m.body.Some? then m.body.value else "")
  {
    hide Lines, ReadBlock;
    assert Text(m, table) == Lines(m.headers, false) + CRLF + Or(m.body, "");
    BlockReads(m.headers, false, Or(m.body, ""));
  }
}
