/** Searching a growing buffer for a token, a little at a time. */
module Tokens {
  newtype byte = x: int | 0 <= x < 256

  type Bytes = seq<byte>

  /** `t` occurs in `b` at index `i`. */
  predicate At(b: Bytes, t: Bytes, i: int) { 0 <= i && i + |t| <= |b| && b[i..i + |t|] == t }

  /** What evbuffer_search_range promises: the least occurrence from `from` on that ends by `stop`. */
  function Find(b: Bytes, t: Bytes, from: nat, stop: nat): (r: int)
    requires stop <= |b|
    ensures r == -1 || (from <= r && r + |t| <= stop && At(b, t, r))
    ensures forall i | from <= i && i + |t| <= stop && (r == -1 || i < r) :: !At(b, t, i)
    decreases stop - from
  {
    if from + |t| > stop then -1 else if At(b, t, from) then from else Find(b, t, from + 1, stop)
  }

  /** The plain search: the least occurrence in the whole buffer. */
  function Index(b: Bytes, t: Bytes): (r: int) { Find(b, t, 0, |b|) }

  datatype Mode = TRIM | WITH | WITHOUT

  const SIZE_RANGE := 0x1_0000_0000_0000_0000

  /** A token record: what to look for, and how far the search has come. */
  class Token {
    const token: Bytes
    const mode: Mode
    const length: int
    var offset: nat
    var position: int
    var limited: bool

    constructor (token: Bytes, mode: Mode, length: int)
      ensures this.token == token && this.mode == mode && this.length == length
      ensures offset == 0 && position == -1 && !limited
    {
      this.token, this.mode, this.length := token, mode, length;
      offset, position, limited := 0, -1, false;
    }
  }

  /** Where a search with limit `length` gives up: the limit counts from the moving offset. */
  function Stop(size: nat, offset: nat, length: int): (stop: nat)
    ensures stop <= size && (length == 0 ==> stop == size)
  {
    var end := (offset + length - 1) % SIZE_RANGE;
    if length % SIZE_RANGE == 0 || end >= size - 1 then size else end
  }

  /** A limited search of a whole buffer finds its first token if the token ends within the limit, and, when
      there are more bytes than the limit, before its last byte. */
  lemma LimitedIndex(b: Bytes, t: Bytes, limit: nat)
    requires 0 < limit < SIZE_RANGE
    ensures var i := Index(b, t);
            Find(b, t, 0, Stop(|b|, 0, limit))
            == if i != -1 && i + |t| <= (if |b| <= limit then |b| else limit - 1) then i else -1
  {
    var i, stop := Index(b, t), Stop(|b|, 0, limit);
    FindUnique(b, t, 0, stop, if i != -1 && i + |t| <= stop then i else -1);
  }

  /** Further on, the limit counts from the offset. */
  lemma LimitMoves(size: nat, offset: nat, limit: nat)
    requires 0 < limit && offset + limit < SIZE_RANGE
    ensures Stop(size, offset, limit) == if size <= offset + limit then size else offset + limit - 1
  {
  }

  /** ion_stream_search_token. */
  method Search(buffer: Bytes, t: Token)
    requires t.token != []
    modifies t
    ensures t.position == Find(buffer, t.token, old(t.offset), Stop(|buffer|, old(t.offset), t.length))
    ensures t.offset == if old(t.offset) < |buffer|
            && |t.token| <= |buffer| then |buffer| - |t.token| + 1 else old(t.offset)
    ensures t.limited == (old(t.limited) || (0 < t.length <= |buffer| && old(t.offset) < |buffer|
            && |t.token| <= |buffer|))
  {
    hide Find;
    var size := |buffer|;
    var end := (t.offset + t.length - 1) % SIZE_RANGE;
    var length := t.length % SIZE_RANGE;
    if size == 0 {
      t.position := -1;
      return;
    }
    if t.offset >= size || |t.token| > size {
      t.position := -1;
      return;
    }
    if end >= size - 1 { length := 0; }
    var found: int;
    if length != 0 {
      found := Find(buffer, t.token, t.offset, end);
    } else {
      found := Find(buffer, t.token, t.offset, size);
    }
    if t.length > 0 && size >= t.length { t.limited := true; }
    t.offset := size - |t.token| + 1;
    t.position := found;
  }

  /** Nothing before `o` can be the start of an occurrence, now or after more bytes arrive. */
  ghost predicate Swept(b: Bytes, t: Bytes, o: nat) {
    (o == 0 || o + |t| <= |b| + 1) && forall i | 0 <= i < o :: !At(b, t, i)
  }

  lemma AtGrows(b: Bytes, x: Bytes, t: Bytes, i: nat)
    requires i + |t| <= |b|
    ensures At(b + x, t, i) == At(b, t, i)
  {
    assert (b + x)[i..i + |t|] == b[i..i + |t|];
  }

  lemma SweptGrows(b: Bytes, x: Bytes, t: Bytes, o: nat)
    requires Swept(b, t, o)
    ensures Swept(b + x, t, o)
  {
    forall i | 0 <= i < o ensures !At(b + x, t, i) { AtGrows(b, x, t, i); }
  }

  lemma FindUnique(b: Bytes, t: Bytes, from: nat, stop: nat, r: int)
    requires stop <= |b|
    requires r == -1 || (from <= r && r + |t| <= stop && At(b, t, r))
    requires forall i | from <= i && i + |t| <= stop && (r == -1 || i < r) :: !At(b, t, i)
    ensures r == Find(b, t, from, stop)
  {
  }

  /** A search from a swept offset answers like a search of the whole buffer. */
  lemma ResumedIsPlain(b: Bytes, t: Bytes, o: nat)
    requires Swept(b, t, o)
    ensures Find(b, t, o, |b|) == Index(b, t)
  {
    FindUnique(b, t, 0, |b|, Find(b, t, o, |b|));
  }

  /** The first occurrence stays the first when bytes arrive. */
  lemma IndexGrows(b: Bytes, x: Bytes, t: Bytes)
    requires Index(b, t) != -1
    ensures Index(b + x, t) == Index(b, t)
  {
    var r := Index(b, t);
    AtGrows(b, x, t, r);
    forall i | 0 <= i < r ensures !At(b + x, t, i) { AtGrows(b, x, t, i); }
    FindUnique(b + x, t, 0, |b + x|, r);
  }

  function Flatten(chunks: seq<Bytes>): Bytes {
    if chunks == [] then [] else chunks[0] + Flatten(chunks[1..])
  }

  lemma {:induction false} FlattenSnoc(chunks: seq<Bytes>, x: Bytes)
    ensures Flatten(chunks + [x]) == Flatten(chunks) + x
  {
    if chunks != [] {
      assert (chunks + [x])[1..] == chunks[1..] + [x];
      FlattenSnoc(chunks[1..], x);
    }
  }

  /** Searching after every chunk, from a fresh record and without a limit, stops at the first chunk that
      completes an occurrence and reports the least index in all bytes received. */
  method SearchChunks(chunks: seq<Bytes>, token: Bytes) returns (n: nat, position: int)
    requires token != []
    ensures n <= |chunks| && position == Index(Flatten(chunks[..n]), token)
    ensures position == -1 ==> n == |chunks|
    ensures forall k | 0 <= k < n :: Index(Flatten(chunks[..k]), token) == -1
  {
    var t := new Token(token, TRIM, 0);
    var buffer: Bytes := [];
    n, position := 0, -1;
    while n < |chunks| && position == -1
      invariant n <= |chunks| && buffer == Flatten(chunks[..n]) && t.token == token && t.length == 0
      invariant position == Index(buffer, token) && (position == -1 ==> Swept(buffer, token, t.offset))
      invariant forall k | 0 <= k < n :: Index(Flatten(chunks[..k]), token) == -1
    {
      assert chunks[..n + 1] == chunks[..n] + [chunks[n]];
      FlattenSnoc(chunks[..n], chunks[n]);
      SweptGrows(buffer, chunks[n], token, t.offset);
      buffer := buffer + chunks[n];
      ResumedIsPlain(buffer, token, t.offset);
      Search(buffer, t);
      n, position := n + 1, t.position;
    }
  }

  /** Exactly when a resumed search misses: the first occurrence starts before the stored offset. */
  lemma MissesExactly(b: Bytes, t: Bytes, o: nat)
    ensures Find(b, t, o, |b|) == Index(b, t) <==> Index(b, t) == -1 || o <= Index(b, t)
  {
    if Index(b, t) == -1 || o <= Index(b, t) { FindUnique(b, t, o, |b|, Index(b, t)); }
  }
}
