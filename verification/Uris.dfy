/** Printing a URI: one pass measures, a second pass writes. */
module Uris {
  import opened Values

  datatype Uri = Uri(scheme: Option<string>, user: Option<string>, pass: Option<string>, host: Option<string>,
                     port: nat, path: Option<string>, query: Option<string>, fragment: Option<string>)

  const SCHEME: bv16 := 1
  const USER_NAME: bv16 := 2
  const USER_PASS: bv16 := 4
  const HOST: bv16 := 8
  const PORT: bv16 := 16
  const PATH: bv16 := 32
  const QUERY: bv16 := 64
  const FRAGMENT: bv16 := 128
  const ALL: bv16 := 255

  predicate Has(parts: bv16, bit: bv16) { parts & bit != 0 }

  // ---- Decimal numbers ------------------------------------------------------------------------

  function Digit(d: nat): char
    requires d < 10
  {
    '0' + d as char
  }

  /** What "%d" prints. */
  function Decimal(n: nat): string {
    if n < 10 then [Digit(n)] else Decimal(n / 10) + [Digit(n % 10)]
  }

  function ValueOf(s: string): nat
    requires AllDigits(s)
  {
    if s == "" then 0 else 10 * ValueOf(s[..|s| - 1]) + (s[|s| - 1] - '0') as nat
  }

  predicate AllDigits(s: string) { forall i | 0 <= i < |s| :: '0' <= s[i] <= '9' }

  lemma {:induction false} DecimalReads(n: nat)
    ensures AllDigits(Decimal(n)) && ValueOf(Decimal(n)) == n && Decimal(n) != ""
  {
    if n >= 10 {
      DecimalReads(n / 10);
      assert Decimal(n)[..|Decimal(n)| - 1] == Decimal(n / 10);
    }
  }

  /** The width that the measuring pass assumes, for every port there is. */
  function PortWidth(port: nat): nat {
    if port >= 10000 then 5 else if port >= 1000 then 4 else if port >= 100 then 3 else if port >= 10 then 2 else 1
  }

  lemma PortWidthExact(port: nat)
    ensures |Decimal(port)| == PortWidth(port) <==> port < 100000
  {
    WidthOver(port, 5);
    if port >= 10 { assert Decimal(port) == Decimal(port / 10) + [Digit(port % 10)]; }
    WidthOver(port, 4); WidthOver(port, 3); WidthOver(port, 2); WidthOver(port, 1);
  }

  function Pow10(k: nat): nat { if k == 0 then 1 else 10 * Pow10(k - 1) }

  /** A number has more than `k` digits exactly when it is at least ten to the `k`. */
  lemma {:induction false} WidthOver(n: nat, k: nat)
    requires k >= 1
    ensures |Decimal(n)| > k <==> n >= Pow10(k)
  {
    if k == 1 {
      assert Pow10(1) == 10;
      if n >= 10 { assert |Decimal(n / 10)| >= 1 by { DecimalReads(n / 10); } }
    } else if n >= 10 {
      WidthOver(n / 10, k - 1);
    } else {
      PowGrows(k);
    }
  }

  lemma {:induction false} PowGrows(k: nat)
    requires k >= 1
    ensures Pow10(k) >= 10
  {
    if k > 1 { PowGrows(k - 1); }
  }

  // ---- The text of a URI ----------------------------------------------------------------------

  function Before(piece: Option<string>, delimiter: string): string {
    if piece.Some? then delimiter + piece.value else ""
  }

  function After(piece: Option<string>, delimiter: string): string {
    if piece.Some? then piece.value + delimiter else ""
  }

  /** The pieces that `parts` selects; a password needs its user. */
  function Selected(u: Uri, parts: bv16): Uri {
    var user := if Has(parts, USER_NAME) then u.user else None;
    Uri(if Has(parts, SCHEME) then u.scheme else None, user,
        if user.Some? && Has(parts, USER_PASS) then u.pass else None,
        if Has(parts, HOST) then u.host else None, if Has(parts, PORT) then u.port else 0,
        if Has(parts, PATH) then u.path else None, if Has(parts, QUERY) then u.query else None,
        if Has(parts, FRAGMENT) then u.fragment else None)
  }

  /** scheme "://" user ":" pass "@" host ":" port path "?" query "#" fragment. */
  function UserInfo(u: Uri): string {
    if u.user.Some? then u.user.value + Before(u.pass, ":") + "@" else ""
  }

  function HostPort(u: Uri): string {
    Before(u.host, "") + if u.port != 0 then ":" + Decimal(u.port) else ""
  }

  function Tail(u: Uri): string { Before(u.query, "?") + Before(u.fragment, "#") }

  function Printed(u: Uri): string {
    After(u.scheme, "://") + UserInfo(u) + HostPort(u) + Before(u.path, "") + Tail(u)
  }

  /** The measuring pass. */
  method Measure(u: Uri, parts: bv16) returns (length: nat)
    requires u.port < 0x10000
    ensures length == |Printed(Selected(u, parts))|
  {
    PortWidthExact(u.port);
    hide Has, Decimal;
    ghost var s := Selected(u, parts);
    length := 0;
    if u.scheme.Some? && Has(parts, SCHEME) { length := length + |u.scheme.value| + 3; }
    if u.user.Some? && Has(parts, USER_NAME) {
      length := length + |u.user.value| + 1;
      if u.pass.Some? && Has(parts, USER_PASS) { length := length + |u.pass.value| + 1; }
    }
    if u.host.Some? && Has(parts, HOST) { length := length + |u.host.value|; }
    assert length == |After(s.scheme, "://")| + |UserInfo(s)| + |Before(s.host, "")|;
    if u.port != 0 && Has(parts, PORT) {
      length := length + 1;
      if u.port >= 10000 {
        length := length + 5;
      } else if u.port >= 1000 {
        length := length + 4;
      } else if u.port >= 100 {
        length := length + 3;
      } else if u.port >= 10 {
        length := length + 2;
      } else {
        length := length + 1;
      }
    }
    assert length == |After(s.scheme, "://")| + |UserInfo(s)| + |HostPort(s)|;
    if u.path.Some? && Has(parts, PATH) { length := length + |u.path.value|; }
    if u.query.Some? && Has(parts, QUERY) { length := length + |u.query.value| + 1; }
    if u.fragment.Some? && Has(parts, FRAGMENT) { length := length + |u.fragment.value| + 1; }
  }

  /** memcpy: every write of the second pass goes through here, and must fit. */
  method Put(buf: array<char>, pos: nat, s: string) returns (next: nat)
    requires pos + |s| <= buf.Length
    modifies buf
    ensures next == pos + |s| && buf[..next] == old(buf[..pos]) + s
  {
    forall j | 0 <= j < |s| { buf[pos + j] := s[j]; }
    next := pos + |s|;
  }

  /** ion_uri_stringify: the writing pass fills the measured buffer exactly. */
  method Stringify(u: Uri, parts: bv16) returns (text: string)
    requires u.port < 0x10000
    ensures text == Printed(Selected(u, parts))
  {
    hide Has, UserInfo, HostPort, Tail;
    var length := Measure(u, parts);
    var buf := new char[length];
    ghost var s := Selected(u, parts);
    var pos := 0;
    if u.scheme.Some? && Has(parts, SCHEME) {
      pos := Put(buf, pos, u.scheme.value);
      pos := Put(buf, pos, "://");
    }
    assert buf[..pos] == After(s.scheme, "://");
    pos := PutUser(u, parts, buf, pos);
    pos := PutHost(u, parts, buf, pos);
    if u.path.Some? && Has(parts, PATH) { pos := Put(buf, pos, u.path.value); }
    assert buf[..pos] == After(s.scheme, "://") + UserInfo(s) + HostPort(s) + Before(s.path, "");
    pos := PutTail(u, parts, buf, pos);
    assert pos == length;
    text := buf[..];
  }

  method PutUser(u: Uri, parts: bv16, buf: array<char>, start: nat) returns (pos: nat)
    requires start + |UserInfo(Selected(u, parts))| <= buf.Length
    modifies buf
    ensures pos == start + |UserInfo(Selected(u, parts))|
    ensures buf[..pos] == old(buf[..start]) + UserInfo(Selected(u, parts))
  {
    hide Has;
    pos := start;
    ghost var was := buf[..start];
    if u.user.Some? && Has(parts, USER_NAME) {
      pos := Put(buf, pos, u.user.value);
      if u.pass.Some? && Has(parts, USER_PASS) {
        pos := Put(buf, pos, ":");
        pos := Put(buf, pos, u.pass.value);
        assert buf[..pos] == was + u.user.value + ":" + u.pass.value;
      }
      assert buf[..pos] == was + (u.user.value + Before(Selected(u, parts).pass, ":"));
      pos := Put(buf, pos, "@");
    }
  }

  method PutHost(u: Uri, parts: bv16, buf: array<char>, start: nat) returns (pos: nat)
    requires start + |HostPort(Selected(u, parts))| <= buf.Length
    modifies buf
    ensures pos == start + |HostPort(Selected(u, parts))|
    ensures buf[..pos] == old(buf[..start]) + HostPort(Selected(u, parts))
  {
    hide Has, Decimal;
    pos := start;
    if u.host.Some? && Has(parts, HOST) { pos := Put(buf, pos, u.host.value); }
    if u.port != 0 && Has(parts, PORT) { pos := Put(buf, pos, ":" + Decimal(u.port)); }
  }

  method PutTail(u: Uri, parts: bv16, buf: array<char>, start: nat) returns (pos: nat)
    requires start + |Tail(Selected(u, parts))| <= buf.Length
    modifies buf
    ensures pos == start + |Tail(Selected(u, parts))|
    ensures buf[..pos] == old(buf[..start]) + Tail(Selected(u, parts))
  {
    hide Has;
    pos := start;
    ghost var s, was := Selected(u, parts), buf[..start];
    if u.query.Some? && Has(parts, QUERY) {
      pos := Put(buf, pos, "?");
      pos := Put(buf, pos, u.query.value);
    }
    assert buf[..pos] == was + Before(s.query, "?");
    if u.fragment.Some? && Has(parts, FRAGMENT) {
      pos := Put(buf, pos, "#");
      pos := Put(buf, pos, u.fragment.value);
    }
  }

  /** ION\URI::getAuthority: nothing without a host. */
  method Authority(u: Uri) returns (text: string)
    requires u.port < 0x10000
    ensures u.host.None? ==> text == ""
    ensures u.host.Some? ==>
              text == (if u.user.None? then "" else if u.pass.None? then u.user.value + "@"
                       else u.user.value + ":" + u.pass.value + "@")
                      + u.host.value + if u.port == 0 then "" else ":" + Decimal(u.port)
  {
    if u.host.None? { return ""; }
    text := Stringify(u, USER_NAME | USER_PASS | HOST | PORT);
    hide Decimal;
    AuthorityParts(u);
  }

  lemma AuthorityParts(u: Uri)
    requires u.host.Some?
    ensures var s := Selected(u, USER_NAME | USER_PASS | HOST | PORT);
            Printed(s) == (if u.user.None? then "" else if u.pass.None? then u.user.value + "@"
                           else u.user.value + ":" + u.pass.value + "@")
                          + u.host.value + if u.port == 0 then "" else ":" + Decimal(u.port)
  {
    hide Decimal;
    var s := Selected(u, USER_NAME | USER_PASS | HOST | PORT);
    assert s == Uri(None, u.user, if u.user.None? then None else u.pass, u.host, u.port, None, None, None);
    assert Printed(s) == UserInfo(s) + HostPort(s);
    if u.user.Some? && u.pass.Some? {
      assert UserInfo(s) == u.user.value + (":" + u.pass.value) + "@";
    }
  }
}
