/** The header table of a message, and its body. */
module Headers {
  import opened Values

  datatype Header = Header(name: string, values: seq<string>)

  function LowerChar(c: char): char { if 'A' <= c <= 'Z' then c + ' ' else c }

  /** zend_string_tolower. */
  function Lower(s: string): (r: string)
    ensures |r| == |s|
    ensures forall i | 0 <= i < |s| :: r[i] == if 'A' <= s[i] <= 'Z' then s[i] + ' ' else s[i]
  {
    seq(|s|, i requires 0 <= i < |s| => LowerChar(s[i]))
  }

  /** What the table means: the values stored under a lower-case name. */
  function Lookup(hs: seq<Header>, name: string): Option<seq<string>> {
    if hs == [] then None else if hs[0].name == name then Some(hs[0].values) else Lookup(hs[1..], name)
  }

  /** Keys are lower-cased and occur once. */
  predicate Table(hs: seq<Header>) {
    && (forall i | 0 <= i < |hs| :: hs[i].name == Lower(hs[i].name))
    && (forall i, j | 0 <= i < j < |hs| :: hs[i].name != hs[j].name)
  }

  function Names(hs: seq<Header>): seq<string> {
    if hs == [] then [] else [hs[0].name] + Names(hs[1..])
  }

  lemma LowerTwice(s: string)
    ensures Lower(Lower(s)) == Lower(s)
  {
  }

  lemma {:induction false} LookupConcat(a: seq<Header>, b: seq<Header>, name: string)
    ensures Lookup(a + b, name) == if Lookup(a, name).Some? then Lookup(a, name) else Lookup(b, name)
  {
    if a == [] {
      assert a + b == b;
    } else {
      assert (a + b)[1..] == a[1..] + b;
      LookupConcat(a[1..], b, name);
    }
  }

  lemma {:induction false} LookupAbsent(hs: seq<Header>, name: string)
    requires forall i | 0 <= i < |hs| :: hs[i].name != name
    ensures Lookup(hs, name) == None
  {
    if hs != [] { LookupAbsent(hs[1..], name); }
  }

  /** Around its only occurrence, a key can be taken out or changed without touching the others. */
  lemma LookupAround(hs: seq<Header>, i: nat, name: string)
    requires Table(hs) && i < |hs|
    ensures Lookup(hs, hs[i].name) == Some(hs[i].values)
    ensures Lookup(hs[..i] + hs[i + 1..], name) == if name == hs[i].name then None else Lookup(hs, name)
    ensures forall vs :: Lookup(hs[i := Header(hs[i].name, vs)], name) ==
                         if name == hs[i].name then Some(vs) else Lookup(hs, name)
  {
    assert hs == hs[..i] + ([hs[i]] + hs[i + 1..]);
    LookupConcat(hs[..i], [hs[i]] + hs[i + 1..], name);
    LookupConcat(hs[..i], [hs[i]] + hs[i + 1..], hs[i].name);
    LookupConcat(hs[..i], hs[i + 1..], name);
    LookupAbsent(hs[..i], hs[i].name);
    LookupAbsent(hs[i + 1..], hs[i].name);
    assert ([hs[i]] + hs[i + 1..])[1..] == hs[i + 1..];
    forall vs ensures Lookup(hs[i := Header(hs[i].name, vs)], name) ==
                      if name == hs[i].name then Some(vs) else Lookup(hs, name) {
      var x := Header(hs[i].name, vs);
      assert hs[i := x] == hs[..i] + ([x] + hs[i + 1..]);
      LookupConcat(hs[..i], [x] + hs[i + 1..], name);
      assert ([x] + hs[i + 1..])[1..] == hs[i + 1..];
    }
  }

  lemma LookupLast(hs: seq<Header>, x: Header, name: string)
    requires Lookup(hs, x.name) == None
    ensures Lookup(hs + [x], name) == if name == x.name then Some(x.values) else Lookup(hs, name)
  {
    LookupConcat(hs, [x], name);
  }

  lemma {:induction false} NoneAbsent(hs: seq<Header>, name: string)
    requires Lookup(hs, name) == None
    ensures forall i | 0 <= i < |hs| :: hs[i].name != name
  {
    if hs != [] { NoneAbsent(hs[1..], name); }
  }

  /** The reference: a map from lower-case names to the values in the order of their arrival. */
  type Multimap = map<string, seq<string>>

  function Under(m: Multimap, name: string): seq<string> { if name in m then m[name] else [] }

  ghost predicate Agrees(hs: seq<Header>, m: Multimap) {
    forall name :: Lookup(hs, name) == if name in m then Some(m[name]) else None
  }

  lemma Deleted(hs: seq<Header>, m: Multimap, i: nat)
    requires Table(hs) && Agrees(hs, m) && i < |hs|
    ensures var hs', m' := hs[..i] + hs[i + 1..], m - {hs[i].name}; Table(hs') && Agrees(hs', m')
  {
    var hs' := hs[..i] + hs[i + 1..];
    forall name ensures Lookup(hs', name) == if name == hs[i].name then None else Lookup(hs, name) {
      LookupAround(hs, i, name);
    }
    hide Lookup;
  }

  class Message {
    var headers: seq<Header>
    /** The header name that the parser has seen last. */
    var buffer: Option<string>
    var body: Option<string>
    /** The reference map, and the body fragments seen so far. */
    ghost var m: Multimap
    ghost var parts: seq<string>

    constructor ()
      ensures Valid() && m == map[] && buffer == None && parts == []
    {
      headers, buffer, body, m, parts := [], None, None, map[], [];
    }

    ghost predicate Valid()
      reads this
    {
      && Table(headers) && Agrees(headers, m)
      && body == if parts == [] then None else Some(Assembled(parts))
    }

    /** zend_hash_find. */
    method Find(key: string) returns (at: Option<nat>)
      requires Valid()
      ensures at.Some? ==>
                at.value < |headers| && headers[at.value].name == key && key in m && headers[at.value].values == m[key]
      ensures at.None? ==> Lookup(headers, key) == None && key !in m
    {
      for i := 0 to |headers|
        invariant forall j | 0 <= j < i :: headers[j].name != key
      {
        if headers[i].name == key {
          LookupAround(headers, i, key);
          return Some(i);
        }
      }
      LookupAbsent(headers, key);
      at := None;
    }

    /** zend_hash_del: the other entries keep their order. */
    method Delete(key: string)
      requires Valid()
      modifies this`headers, this`m
      ensures Valid() && m == old(m) - {key}
      ensures Lookup(headers, key) == None && key !in Names(headers)
    {
      var at := Find(key);
      if at.Some? {
        Deleted(headers, m, at.value);
        headers := headers[..at.value] + headers[at.value + 1..];
      } else {
        assert m - {key} == m;
      }
      m := m - {key};
      hide Table, Lookup;
      NoneAbsent(headers, key);
      NamesIn(headers, key);
    }

    /** zend_hash_add of an empty list under a new key, at the end. */
    method Add(key: string) returns (at: nat)
      requires Valid() && key == Lower(key) && Lookup(headers, key) == None
      modifies this`headers, this`m
      ensures Valid() && m == old(m)[key := []] && at < |headers| && headers[at] == Header(key, [])
      ensures at == |headers| - 1 && headers[..at] == old(headers)
    {
      forall name ensures Lookup(headers + [Header(key, [])], name) == if name == key then Some([])
        else Lookup(headers, name) {
        LookupLast(headers, Header(key, []), name);
      }
      NoneAbsent(headers, key);
      headers := headers + [Header(key, [])];
      m := m[key := []];
      at := |headers| - 1;
    }

    /** ion_http_message_store_header_value, for a list of strings. */
    method Store(at: nat, values: seq<string>)
      requires Valid() && at < |headers|
      modifies this`headers, this`m
      ensures Valid() && headers == old(headers)[at := Header(old(headers)[at].name, old(headers)[at].values + values)]
      ensures m == old(m)[old(headers)[at].name := old(headers)[at].values + values]
    {
      ghost var was, key := headers, headers[at].name;
      var all := headers[at].values;
      assert values[..0] == [];
      for i := 0 to |values|
        invariant headers == was && all == was[at].values + values[..i]
      {
        assert values[..i + 1] == values[..i] + [values[i]];
        all := all + [values[i]];
      }
      assert values[..|values|] == values;
      headers := headers[at := Header(headers[at].name, all)];
      m := m[key := all];
      forall name ensures Lookup(headers, name) == if name in m then Some(m[name]) else None {
        LookupAround(was, at, name);
        assert Lookup(was[at := Header(was[at].name, all)], name) == if name == key then Some(all)
          else Lookup(was, name);
      }
    }

    /** ion_http_message_with_header: the header is replaced, and moves to the end. */
    method WithHeader(name: string, values: seq<string>)
      requires Valid()
      modifies this`headers, this`m
      ensures Valid() && m == old(m)[Lower(name) := values]
      ensures headers != [] && headers[|headers| - 1] == Header(Lower(name), values)
    {
      LowerTwice(name);
      var key := Lower(name);
      Delete(key);
      var at := Add(key);
      Store(at, values);
      assert headers[at].values == [] + values == values;
      assert old(m)[key := values] == (old(m) - {key})[key := []][key := values];
    }

    /** ion_http_message_with_added_header: the values go behind those that are there. */
    method WithAddedHeader(name: string, values: seq<string>)
      requires Valid()
      modifies this`headers, this`m
      ensures Valid()
      ensures m == old(m)[Lower(name) := Under(old(m), Lower(name)) + values]
    {
      LowerTwice(name);
      var key := Lower(name);
      var at := Find(key);
      if at.Some? {
        Store(at.value, values);
      } else {
        var last := Add(key);
        Store(last, values);
      }
    }

    /** ION\HTTP\Message::withoutHeader. */
    method WithoutHeader(name: string)
      requires Valid()
      modifies this`headers, this`m
      ensures Valid() && m == old(m) - {Lower(name)}
    {
      Delete(Lower(name));
    }

    /** The parser's header name callback. */
    method HeaderName(at: string)
      requires Valid()
      modifies this`buffer
      ensures Valid() && buffer == Some(at)
    {
      buffer := Some(at);
    }

    /** The parser's header value callback: an error unless a name has come first. */
    method HeaderValue(at: string) returns (ok: bool)
      requires Valid()
      modifies this`headers, this`m, this`buffer
      ensures Valid() && buffer == None && ok == old(buffer).Some?
      ensures m == if !ok then old(m)
                   else var key := Lower(old(buffer).value); old(m)[key := Under(old(m), key) + [at]]
    {
      if buffer == None { return false; }
      WithAddedHeader(buffer.value, [at]);
      buffer := None;
      ok := true;
    }

    /** The parser's body callback: the body stays the concatenation of the fragments seen. */
    method Body(at: string)
      requires Valid()
      modifies this`body, this`parts
      ensures Valid() && parts == old(parts) + [at]
    {
      AssembledSnoc(parts, at);
      if body.Some? {
        body := Some(body.value + at);
      } else {
        assert "" + at == at;
        body := Some(at);
      }
      parts := parts + [at];
    }

    /** ION\HTTP\Message::hasHeader. */
    method HasHeader(name: string) returns (has: bool)
      requires Valid()
      ensures has == (Lower(name) in m)
    {
      var at := Find(Lower(name));
      has := at.Some?;
    }

    /** ION\HTTP\Message::getHeader. */
    method GetHeader(name: string) returns (values: seq<string>)
      requires Valid()
      ensures values == Under(m, Lower(name))
    {
      var at := Find(Lower(name));
      values := if at.Some? then headers[at.value].values else [];
    }
  }

  lemma {:induction false} NamesIn(hs: seq<Header>, key: string)
    requires forall i | 0 <= i < |hs| :: hs[i].name != key
    ensures key !in Names(hs)
  {
    if hs != [] { NamesIn(hs[1..], key); }
  }

  // ---- Runs -----------------------------------------------------------------------------------

  datatype Edit =
    | With(name: string, values: seq<string>) | WithAdded(name: string, values: seq<string>) | Without(name: string)
    | SeesName(name: string) | SeesValue(value: string) | SeesBody(part: string)

  /** The reference: the map, the parser's pending name, and the body. */
  datatype Reference = Reference(m: Multimap, buffer: Option<string>, body: Option<string>)

  function Apply(r: Reference, e: Edit): Reference {
    match e
    case With(name, values) => r.(m := r.m[Lower(name) := values])
    case WithAdded(name, values) => r.(m := r.m[Lower(name) := Under(r.m, Lower(name)) + values])
    case Without(name) => r.(m := r.m - {Lower(name)})
    case SeesName(name) => r.(buffer := Some(name))
    case SeesValue(value) =>
      if r.buffer == None then r
      else r.(m := r.m[Lower(r.buffer.value) := Under(r.m, Lower(r.buffer.value)) + [value]], buffer := None)
    case SeesBody(part) => r.(body := Some((if r.body.Some? then r.body.value else "") + part))
  }

  function ApplyAll(edits: seq<Edit>): Reference {
    if edits == [] then Reference(map[], None, None)
    else Apply(ApplyAll(edits[..|edits| - 1]), edits[|edits| - 1])
  }

  /** Any sequence of edits and parser callbacks leaves a table that agrees with the reference map:
      `name` in any case finds the values that arrived under it, in order. */
  method Play(edits: seq<Edit>) returns (msg: Message)
    ensures fresh(msg) && msg.Valid() && Reference(msg.m, msg.buffer, msg.body) == ApplyAll(edits)
  {
    msg := new Message();
    for n := 0 to |edits|
      invariant fresh(msg) && msg.Valid() && msg.parts == Fragments(edits[..n])
      invariant msg.m == ApplyAll(edits[..n]).m && msg.buffer == ApplyAll(edits[..n]).buffer
    {
      assert edits[..n + 1][..n] == edits[..n] && edits[..n + 1] == edits[..n] + [edits[n]];
      FragmentsSnoc(edits[..n], edits[n]);
      match edits[n]
      case With(name, values) => msg.WithHeader(name, values);
      case WithAdded(name, values) => msg.WithAddedHeader(name, values);
      case Without(name) => msg.WithoutHeader(name);
      case SeesName(name) => msg.HeaderName(name);
      case SeesValue(value) => var ok := msg.HeaderValue(value);
      case SeesBody(part) => msg.Body(part);
    }
    assert edits[..|edits|] == edits;
    BodyIsFragments(edits);
  }

  /** The body fragments among some edits, in order, and what they make together. */
  function Fragments(edits: seq<Edit>): seq<string> {
    if edits == [] then []
    else if edits[0].SeesBody? then [edits[0].part] + Fragments(edits[1..])
    else Fragments(edits[1..])
  }

  function Assembled(parts: seq<string>): string { if parts == [] then "" else parts[0] + Assembled(parts[1..]) }

  lemma {:induction false} FragmentsSnoc(edits: seq<Edit>, e: Edit)
    ensures Fragments(edits + [e]) == Fragments(edits) + if e.SeesBody? then [e.part] else []
  {
    if edits == [] {
      assert [e][1..] == [];
    } else {
      assert (edits + [e])[1..] == edits[1..] + [e];
      FragmentsSnoc(edits[1..], e);
    }
  }

  lemma {:induction false} AssembledSnoc(parts: seq<string>, x: string)
    ensures Assembled(parts + [x]) == Assembled(parts) + x
  {
    if parts == [] {
      assert [x][1..] == [] && Assembled([]) == "";
    } else {
      assert (parts + [x])[1..] == parts[1..] + [x];
      AssembledSnoc(parts[1..], x);
    }
  }

  lemma NothingAssembled()
    ensures Assembled([]) == ""
  {
  }

  /** However the body is cut, and whatever happens between its fragments, the message has their
      concatenation, and no body before the first of them. */
  lemma {:induction false} BodyIsFragments(edits: seq<Edit>)
    ensures var parts := Fragments(edits);
            ApplyAll(edits).body == if parts == [] then None else Some(Assembled(parts))
  {
    if edits != [] {
      var front, e := edits[..|edits| - 1], edits[|edits| - 1];
      assert edits == front + [e];
      BodyIsFragments(front);
      FragmentsSnoc(front, e);
      assert ApplyAll(edits) == Apply(ApplyAll(front), e);
      hide ApplyAll, Fragments, Assembled;
      if e.SeesBody? {
        AssembledSnoc(Fragments(front), e.part);
        assert Fragments(front) == [] ==> Assembled(Fragments(front)) == "" by { NothingAssembled(); }
      } else {
        assert Fragments(front) + [] == Fragments(front);
      }
    }
  }

  /** The edits that concern `name` in any case: a value does when the pending name does. */
  function About(edits: seq<Edit>, name: string): seq<Edit> {
    if edits == [] then []
    else
      var front, e := edits[..|edits| - 1], edits[|edits| - 1];
      About(front, name) + if Concerns(ApplyAll(front).buffer, e, name) then [e] else []
  }

  predicate Concerns(buffer: Option<string>, e: Edit, name: string) {
    match e
    case With(n, _) => Lower(n) == name
    case WithAdded(n, _) => Lower(n) == name
    case Without(n) => Lower(n) == name
    case SeesName(n) => Lower(n) == name
    case SeesValue(_) => buffer.Some? && Lower(buffer.value) == name
    case SeesBody(_) => false
  }

  /** `a` and `b` hold the same under `name`, and the same name is pending if it is `name`. */
  predicate Alike(a: Reference, b: Reference, name: string) {
    && (name in a.m <==> name in b.m) && Under(a.m, name) == Under(b.m, name)
    && (a.buffer.Some? && Lower(a.buffer.value) == name ==> b.buffer == a.buffer)
  }

  lemma AlikeStep(a: Reference, b: Reference, e: Edit, name: string)
    requires Alike(a, b, name)
    ensures Alike(Apply(a, e), if Concerns(a.buffer, e, name) then Apply(b, e) else b, name)
  {
    hide Lower;
  }

  /** What a table holds under a name is what the edits on that name alone would leave. */
  lemma {:induction false} OtherNamesDoNotMatter(edits: seq<Edit>, name: string)
    ensures Alike(ApplyAll(edits), ApplyAll(About(edits, name)), name)
  {
    if edits != [] {
      var front, e := edits[..|edits| - 1], edits[|edits| - 1];
      OtherNamesDoNotMatter(front, name);
      var some, r := About(front, name), ApplyAll(front);
      AlikeStep(r, ApplyAll(some), e, name);
      assert ApplyAll(edits) == Apply(r, e);
      if Concerns(r.buffer, e, name) {
        assert About(edits, name) == some + [e] && (some + [e])[..|some|] == some;
        assert ApplyAll(some + [e]) == Apply(ApplyAll(some), e);
      } else {
        assert About(edits, name) == some;
      }
    }
  }
}
