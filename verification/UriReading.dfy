/** Reading a printed URI back by its delimiters, in the manner of appendix B of RFC 3986. */
module UriReading {
  import opened Values
  import opened Uris

  datatype Halves = Halves(left: string, right: Option<string>)

  /** Cuts at the first `c`, which disappears. */
  function Cut(s: string, c: char): Halves {
    if s == "" then Halves("", None)
    else if s[0] == c then Halves("", Some(s[1..]))
    else Halves([s[0]] + Cut(s[1..], c).left, Cut(s[1..], c).right)
  }

  lemma {:induction false} CutFound(a: string, c: char, b: string)
    requires c !in a
    ensures Cut(a + [c] + b, c) == Halves(a, Some(b))
  {
    if a == "" {
      assert (a + [c] + b)[1..] == b;
    } else {
      assert (a + [c] + b)[1..] == a[1..] + [c] + b;
      CutFound(a[1..], c, b);
    }
  }

  lemma {:induction false} CutNone(s: string, c: char)
    requires c !in s
    ensures Cut(s, c) == Halves(s, None)
  {
    if s != "" { CutNone(s[1..], c); }
  }

  /** One delimited piece at the end of a text: it is cut off exactly when it is there. */
  lemma CutBefore(a: string, piece: Option<string>, c: char)
    requires c !in a
    ensures Cut(a + Before(piece, [c]), c) == Halves(a, piece)
  {
    if piece.Some? {
      assert a + Before(piece, [c]) == a + [c] + piece.value;
      CutFound(a, c, piece.value);
    } else {
      assert a + Before(piece, [c]) == a;
      CutNone(a, c);
    }
  }

  predicate Free(s: string, cs: string) { forall c | c in cs :: c !in s }

  predicate FreeOpt(piece: Option<string>, cs: string) { piece.Some? ==> Free(piece.value, cs) }

  /** No piece contains a delimiter that ends it, and a path starts with a slash. */
  predicate WellFormed(u: Uri) {
    && FreeOpt(u.scheme, ":/?#@")
    && FreeOpt(u.user, ":/?#@") && FreeOpt(u.pass, "/?#@") && (u.pass.Some? ==> u.user.Some?)
    && FreeOpt(u.host, ":/?#@") && u.host != Some("")
    && (u.path.Some? ==> u.path.value != "" && u.path.value[0] == '/' && Free(u.path.value, "?#"))
    && FreeOpt(u.query, "#")
  }

  /** Everything before the first "://", if no slash comes earlier. */
  function CutScheme(s: string): (Option<string>, string) {
    var h := Cut(s, ':');
    if h.right.Some? && "//" <= h.right.value && '/' !in h.left then (Some(h.left), h.right.value[2..]) else (None, s)
  }

  function CutPath(s: string): (string, Option<string>) {
    var h := Cut(s, '/');
    (h.left, if h.right.Some? then Some("/" + h.right.value) else None)
  }

  function ReadPort(s: Option<string>): nat { if s.Some? && AllDigits(s.value) then ValueOf(s.value) else 0 }

  function ReadAuthority(s: string): Uri {
    var h := Cut(s, '@');
    var user := if h.right.Some? then Cut(h.left, ':') else Halves("", None);
    var host := Cut(if h.right.Some? then h.right.value else h.left, ':');
    Uri(None, if h.right.Some? then Some(user.left) else None, user.right,
        if host.left == "" then None else Some(host.left), ReadPort(host.right), None, None, None)
  }

  function ReadUri(s: string): Uri {
    var f := Cut(s, '#');
    var q := Cut(f.left, '?');
    var (scheme, rest) := CutScheme(q.left);
    var (authority, path) := CutPath(rest);
    ReadAuthority(authority).(scheme := scheme, path := path, query := q.right, fragment := f.right)
  }

  function PathOf(u: Uri): string { Before(u.path, "") }

  function Body(u: Uri): string { UserInfo(u) + HostPort(u) + PathOf(u) }

  lemma {:induction false} DigitsFree(n: nat)
    ensures Free(Decimal(n), ":/?#@")
  {
    DecimalReads(n);
    var s := Decimal(n);
    forall c | c in s ensures '0' <= c <= '9' { var i :| 0 <= i < |s| && s[i] == c; }
  }

  lemma PiecesFree(u: Uri)
    requires WellFormed(u)
    ensures Free(UserInfo(u), "/?#") && Free(HostPort(u), "/?#@") && Free(PathOf(u), "?#") && Free(Body(u), "?#")
  {
    DigitsFree(u.port);
    hide Decimal;
  }

  lemma AuthorityReads(u: Uri)
    requires WellFormed(u)
    ensures ReadAuthority(UserInfo(u) + HostPort(u))
         == Uri(None, u.user, u.pass, u.host, u.port, None, None, None)
  {
    DigitsFree(u.port);
    DecimalReads(u.port);
    hide Decimal, Cut;
    PiecesFree(u);
    var host := Before(u.host, "");
    var port := if u.port != 0 then Some(Decimal(u.port)) else None;
    CutBefore(host, port, ':');
    assert HostPort(u) == host + Before(port, [':']);
    assert ReadPort(port) == u.port && (u.host.Some? ==> host == u.host.value);
    if u.user.Some? {
      var info := u.user.value + Before(u.pass, ":");
      assert UserInfo(u) + HostPort(u) == info + ['@'] + HostPort(u);
      CutFound(info, '@', HostPort(u));
      CutBefore(u.user.value, u.pass, ':');
    } else {
      assert UserInfo(u) + HostPort(u) == HostPort(u);
      CutNone(HostPort(u), '@');
    }
  }

  lemma PathReads(u: Uri)
    requires WellFormed(u)
    ensures CutPath(Body(u)) == (UserInfo(u) + HostPort(u), u.path)
  {
    PiecesFree(u);
    hide UserInfo, HostPort;
    var authority := UserInfo(u) + HostPort(u);
    if u.path.Some? {
      var p := u.path.value;
      assert p == ['/'] + p[1..];
      assert Body(u) == authority + ['/'] + p[1..];
      CutFound(authority, '/', p[1..]);
    } else {
      assert Body(u) == authority;
      CutNone(authority, '/');
    }
  }

  /** What follows the first colon of a text without scheme: a password, a port, or part of a path. */
  lemma NoScheme(u: Uri)
    requires WellFormed(u)
    ensures CutScheme(Body(u)) == (None, Body(u))
  {
    var h := Cut(Body(u), ':');
    if h.right.Some? && "//" <= h.right.value && '/' !in h.left {
      CutJoins(Body(u), ':');
      PiecesFree(u);
      ColonInside(u, h.left, h.right.value);
    }
  }

  lemma {:induction false} CutJoins(s: string, c: char)
    ensures var h := Cut(s, c); c !in h.left && s == h.left + if h.right.Some? then [c] + h.right.value else ""
  {
    if s != "" && s[0] != c {
      CutJoins(s[1..], c);
      assert s == [s[0]] + s[1..];
    }
  }

  /** A colon before the first slash stands in the authority, and what follows it is no slash twice. */
  lemma ColonInside(u: Uri, left: string, right: string)
    requires WellFormed(u) && Body(u) == left + [':'] + right && '/' !in left
    ensures !("//" <= right)
  {
    PiecesFree(u);
    EndsPlain(u);
    var authority, k := UserInfo(u) + HostPort(u), |left|;
    hide UserInfo, HostPort;
    assert '/' in "/?#" && '/' in "/?#@" && '/' !in authority;
    assert Body(u) == authority + PathOf(u) && Body(u)[k] == ':';
    assert PathOf(u) != "" ==> PathOf(u)[0] == '/' && Body(u)[|authority|] == '/';
    assert forall i | 0 <= i < k :: Body(u)[i] == left[i] && Body(u)[i] != '/';
    assert k < |authority| && authority[k] == ':' && k + 1 < |authority|;
    assert right[0] == Body(u)[k + 1] == authority[k + 1];
  }

  /** An authority does not end in a colon. */
  lemma EndsPlain(u: Uri)
    requires WellFormed(u)
    ensures var a := UserInfo(u) + HostPort(u); a != "" ==> a[|a| - 1] != ':'
  {
    DigitsFree(u.port);
    DecimalReads(u.port);
    hide Decimal;
    var a, host := UserInfo(u) + HostPort(u), Before(u.host, "");
    if u.port != 0 {
      var d := Decimal(u.port);
      assert a[|a| - 1] == d[|d| - 1];
    } else if host != "" {
      assert a[|a| - 1] == host[|host| - 1] && ':' in ":/?#@";
    }
  }

  /** Printing all parts of a well-formed URI loses nothing: the text reads back as the URI. */
  lemma PrintedReads(u: Uri)
    requires WellFormed(u)
    ensures ReadUri(Printed(u)) == u
  {
    PiecesFree(u);
    hide Cut, Body, UserInfo, HostPort;
    var head := After(u.scheme, "://") + Body(u);
    assert head == After(u.scheme, "://") + UserInfo(u) + HostPort(u) + PathOf(u) by { hide *; BodyParts(u); }
    assert Printed(u) == head + Before(u.query, "?") + Before(u.fragment, "#");
    CutBefore(head + Before(u.query, "?"), u.fragment, '#');
    CutBefore(head, u.query, '?');
    SchemeReads(u);
    PathReads(u);
    AuthorityReads(u);
  }

  lemma BodyParts(u: Uri)
    ensures After(u.scheme, "://") + Body(u) == After(u.scheme, "://") + UserInfo(u) + HostPort(u) + PathOf(u)
  {
  }

  lemma SchemeReads(u: Uri)
    requires WellFormed(u)
    ensures CutScheme(After(u.scheme, "://") + Body(u)) == (u.scheme, Body(u))
  {
    if u.scheme.Some? {
      var rest := "//" + Body(u);
      assert After(u.scheme, "://") + Body(u) == u.scheme.value + [':'] + rest;
      CutFound(u.scheme.value, ':', rest);
    } else {
      assert After(u.scheme, "://") + Body(u) == Body(u);
      NoScheme(u);
    }
  }

  /** With all parts selected, printing is the whole URI. */
  lemma AllSelected(u: Uri)
    requires u.pass.Some? ==> u.user.Some?
    ensures Selected(u, ALL) == u
  {
  }

  /** With any selection of parts, the text reads back as those parts of the URI: bit 0 selects the scheme,
      1 the user, 2 its password, 3 the host, 4 the port, 5 the path, 6 the query and 7 the fragment. */
  lemma PartsRead(u: Uri, parts: bv16)
    requires WellFormed(u)
    ensures var r := ReadUri(Printed(Selected(u, parts)));
            && r.scheme == (if parts & 1 != 0 then u.scheme else None)
            && r.user == (if parts & 2 != 0 then u.user else None)
            && r.pass == (if parts & 2 != 0 && parts & 4 != 0 then u.pass else None)
            && r.host == (if parts & 8 != 0 then u.host else None)
            && r.port == (if parts & 16 != 0 then u.port else 0)
            && r.path == (if parts & 32 != 0 then u.path else None)
            && r.query == (if parts & 64 != 0 then u.query else None)
            && r.fragment == (if parts & 128 != 0 then u.fragment else None)
  {
    assert WellFormed(Selected(u, parts));
    hide Printed, ReadUri;
    PrintedReads(Selected(u, parts));
  }
}
