/** Pending reads of a stream: by count, by line, or everything. */
module Streams {
  import opened Tokens

  /** What a read call returns at once. */
  datatype Answer =
    | Text(data: Bytes)   // the bytes
    | Waits               // a new deferred
    | Joins               // the deferred of the equal read that is pending
    | No                  // false
    | Locked              // another read is pending
    | ReadFailed          // nothing could be read
    | EmptyToken

  function TextOf(answer: Answer): Bytes { if answer.Text? then answer.data else [] }

  /** What a line read may drop: the token, in the mode that trims it. */
  function Trimmed(mode: Mode, t: Bytes): Bytes { if mode.TRIM? then t else [] }

  /** How a pending read ends. */
  datatype Outcome = Delivered(data: Bytes) | EndsFalse | Rejected

  /** Bytes that left the buffer together: handed to the program, and dropped with them. */
  datatype Piece = Piece(data: Bytes, dropped: Bytes)

  function Flat(ps: seq<Piece>): Bytes {
    if ps == [] then [] else ps[0].data + ps[0].dropped + Flat(ps[1..])
  }

  lemma {:induction false} FlatSnoc(ps: seq<Piece>, p: Piece)
    ensures Flat(ps + [p]) == Flat(ps) + p.data + p.dropped
  {
    if ps != [] {
      assert (ps + [p])[1..] == ps[1..] + [p];
      FlatSnoc(ps[1..], p);
    }
  }

  /** A limited search has seen as many bytes as its limit allows. */
  predicate GivesUp(b: Bytes, t: Bytes, offset: nat, length: int, already: bool) {
    already || (0 < length <= |b| && offset < |b| && |t| <= |b|)
  }

  /** A zend_long seen as a size_t. */
  function Size(n: int): nat { n % SIZE_RANGE }

  class Stream {
    var input: Bytes
    /** The bytes a count read waits for; it survives that read. */
    var length: nat
    var token: Token?
    var reading: bool
    /** The low watermark: with fewer bytes buffered, input is not announced. */
    var low: nat
    var eof: bool
    var error: bool
    var hasData: bool
    var suspended: bool
    var incoming: bool
    /** All bytes that ever arrived, and all pieces that left. */
    ghost var received: Bytes
    ghost var pieces: seq<Piece>
    /** Bytes were taken from under the pending line read. */
    ghost var disturbed: bool

    constructor ()
      ensures Valid() && input == [] && !reading && received == [] && pieces == [] && low == 0 && !eof && !error
    {
      input, length, token, reading, low := [], 0, null, false, 0;
      eof, error, hasData, suspended, incoming := false, false, false, false, false;
      received, pieces, disturbed := [], [], false;
    }

    /** Every byte is accounted for, and no read waits for what is already there. */
    ghost predicate Valid()
      reads this, token
    {
      && received == Flat(pieces) + input
      && (token != null ==> reading && token.token != [] && (token.length <= 0 ==> !token.limited))
      && (token != null && token.length == 0 && !disturbed ==>
            Swept(input, token.token, token.offset) && (low <= |input| ==> Index(input, token.token) == -1))
      && (reading && token == null && length > 0 ==> |input| < length && low == length)
    }

    /** The program received `data`, and at most `t` was dropped with it. */
    twostate predicate Hands(data: Bytes, t: Bytes)
      reads this
    {
      || (data == [] && pieces == old(pieces))
      || (exists d :: (d == [] || d == t) && pieces == old(pieces) + [Piece(data, d)])
    }

    /** bufferevent_read and evbuffer_drain, one after the other. */
    method Take(n: nat, drop: nat) returns (data: Bytes)
      requires n + drop <= |input| && received == Flat(pieces) + input
      modifies this`input, this`pieces
      ensures received == Flat(pieces) + input && |data| == n
      ensures old(input) == data + old(input)[n..n + drop] + input
      ensures pieces == old(pieces) + [Piece(data, old(input)[n..n + drop])]
    {
      ghost var was := input;
      data := input[..n];
      ghost var dropped := input[n..n + drop];
      input := input[n + drop..];
      FlatSnoc(pieces, Piece(data, dropped));
      pieces := pieces + [Piece(data, dropped)];
      assert was == data + dropped + input;
    }

    /** ion_stream_read: at most `size` bytes; reading none of the bytes that are there is a failure. */
    method ReadBytes(size: nat) returns (data: Bytes, ok: bool)
      requires received == Flat(pieces) + input
      modifies this`input, this`pieces
      ensures received == Flat(pieces) + input && old(input) == data + input
      ensures |data| == if size <= |old(input)| then size else |old(input)|
      ensures Hands(data, [])
      ensures ok == (size > 0 || old(input) == [])
    {
      if |input| == 0 { return [], true; }
      var n := if size > |input| then |input| else size;
      data := Take(n, 0);
      assert pieces == old(pieces) + [Piece(data, [])];
      ok := |data| > 0;
    }

    /** ion_stream_read_token: the bytes before the token that was found, and the token as the mode says. */
    method ReadToken(t: Token) returns (data: Bytes)
      requires received == Flat(pieces) + input && t.token != []
      requires t.position >= 0 && At(input, t.token, t.position)
      modifies this`input, this`pieces, t`position
      ensures received == Flat(pieces) + input && Hands(data, Trimmed(t.mode, t.token))
      ensures t.mode.TRIM? ==> old(input) == data + t.token + input && |data| == old(t.position)
      ensures t.mode.WITH? ==>
                old(input) == data + input && |data| == old(t.position) + |t.token|
                && t.token <= data[old(t.position)..]
      ensures t.mode.WITHOUT? ==> old(input) == data + input && |data| == old(t.position)
    {
      if t.position == 0 {
        if t.mode.WITH? {
          data := Take(|t.token|, 0);
        } else if t.mode.TRIM? {
          data := Take(0, |t.token|);
        } else {
          data := [];
        }
      } else {
        if t.mode.WITH? { t.position := t.position + |t.token|; }
        data := Take(t.position, if t.mode.TRIM? then |t.token| else 0);
      }
    }

    /** _ion_stream_read_dtor: runs when the deferred settles, before its handlers. */
    method Release()
      modifies this`token, this`reading
      ensures !reading && (old(reading) ==> token == null) && (!old(reading) ==> token == old(token))
    {
      if reading {
        token := null;
        reading := false;
      }
    }

    /** _ion_stream_input up to the end of the delivery.  User code may run before `Leave`. */
    method Arrive(data: Bytes) returns (announced: bool, had: bool, outcome: seq<Outcome>)
      requires Valid()
      modifies this`input, this`received, this`pieces, this`token, this`reading, this`low, token
      ensures Valid() && received == old(received) + data
      ensures low == if outcome != [] && old(token) == null then 0 else old(low)
      ensures outcome == [] || (|outcome| == 1 && old(reading) && !reading && token == null && !outcome[0].Rejected?)
      ensures outcome == [] ==>
                && reading == old(reading) && token == old(token) && input == old(input) + data
                && length == old(length) && disturbed == old(disturbed)
      ensures outcome != [] && old(token) == null ==>
                outcome[0].Delivered? && |outcome[0].data| == old(length) > 0
                  && old(input) + data == outcome[0].data + input
      ensures outcome != [] && old(token) != null && old(token.length) == 0 && !old(disturbed) ==>
                outcome[0].Delivered?
                  && IsLine(old(input) + data, old(token.token), old(token.mode), outcome[0].data, input)
      ensures had == old(reading) && (announced <==> old(low) <= |old(input) + data|)
      ensures !announced ==> outcome == []
      ensures old(token) != null && announced ==>
                var b := old(input) + data;
                var i := Find(b, old(token.token), old(token.offset), Stop(|b|, old(token.offset), old(token.length)));
                if i != -1 then
                  outcome != [] && outcome[0].Delivered?
                  && IsCut(b, old(token.token), old(token.mode), i, outcome[0].data, input)
                else
                  var ends := GivesUp(b, old(token.token), old(token.offset), old(token.length), old(token.limited));
                  input == b && outcome == if ends then [EndsFalse] else []
      ensures old(token) != null && old(token.length) == 0 ==>
                var b := old(input) + data;
                var i := Index(b, old(token.token));
                GotNext(b, old(token.token), old(token.mode), outcome, input)
                <==> i == -1 || (old(low) <= |b| && old(token.offset) <= i)
      ensures old(token) != null && announced && outcome == [] && |old(token.token)| <= |input|
              && old(token.offset) < |input| ==>
                token.offset == |input| - |token.token| + 1
      ensures Hands(if outcome != [] && outcome[0].Delivered? then outcome[0].data else [],
                    if old(token) != null then Trimmed(old(token.mode), old(token.token)) else [])
    {
      ghost var was := input;
      input, received := input + data, received + data;
      had, outcome := reading, [];
      if token != null { SweptLater(was, data, token.token, token.offset); }
      if |input| < low { return false, had, []; }
      announced := true;
      if reading {
        if token != null {
          ghost var b, t, mode, o, unlimited := input, token.token, token.mode, token.offset, token.length == 0;
          outcome := ArriveLine();
          if unlimited { NextExactly(b, t, mode, o, outcome, input); }
        } else if length > 0 {
          if |input| >= length {
            var text, ok := ReadBytes(length);
            low := 0;
            Release();
            outcome := [Delivered(text)];
          }
        }
      }
    }

    /** The pending line read looks at the buffer once more. */
    method ArriveLine() returns (outcome: seq<Outcome>)
      requires token != null && reading && token.token != [] && received == Flat(pieces) + input && low <= |input|
      requires token.length <= 0 ==> !token.limited
      requires token.length == 0 && !disturbed ==> Swept(input, token.token, token.offset)
      modifies this`input, this`pieces, this`token, this`reading, token
      ensures Valid()
      ensures outcome == [] || (|outcome| == 1 && !reading && token == null && !outcome[0].Rejected?)
      ensures outcome == [] ==> reading && token == old(token) && input == old(input)
      ensures outcome != [] && old(token.length) == 0 && !disturbed ==>
                outcome[0].Delivered? && IsLine(old(input), old(token.token), old(token.mode), outcome[0].data, input)
      ensures var b := old(input);
              var i := Find(b, old(token.token), old(token.offset), Stop(|b|, old(token.offset), old(token.length)));
              if i != -1 then
                outcome != [] && outcome[0].Delivered?
                && IsCut(b, old(token.token), old(token.mode), i, outcome[0].data, input)
              else
                var ends := GivesUp(b, old(token.token), old(token.offset), old(token.length), old(token.limited));
                input == b && outcome == if ends then [EndsFalse] else []
      ensures outcome == [] && |old(token.token)| <= |input| && old(token.offset) < |input| ==>
                token.offset == |input| - |token.token| + 1
      ensures Hands(if outcome != [] && outcome[0].Delivered? then outcome[0].data else [],
                    Trimmed(old(token.mode), old(token.token)))
    {
      ghost var o := token.offset;
      if token.length == 0 && !disturbed { ResumedIsPlain(input, token.token, o); }
      Search(input, token);
      outcome := [];
      if token.position != -1 {
        var text := ReadToken(token);
        Release();
        outcome := [Delivered(text)];
      } else if token.limited {
        Release();
        outcome := [EndsFalse];
      }
    }

    /** The rest of _ion_stream_input: is the incoming handler to be told? */
    method Leave(had: bool) returns (tell: bool)
      requires Valid()
      modifies this`hasData
      ensures Valid() && (tell ==> !reading && incoming && !suspended)
      ensures !had ==> hasData && tell == (!reading && incoming && !suspended)
      ensures had ==> tell == (!reading && incoming && !suspended && input != [])
    {
      hasData := !had || |input| > 0;
      tell := !reading && incoming && !suspended && hasData;
    }

    /** The EOF branch of _ion_stream_notify: a read that still waits gets false, or all there is. */
    method Eof() returns (outcome: seq<Outcome>)
      requires Valid()
      modifies this`eof, this`input, this`pieces, this`token, this`reading
      ensures Valid() && eof && received == old(received) && low == old(low)
      ensures outcome == if !old(reading) then []
                         else if old(token) != null || old(length) > 0 then [EndsFalse] else [Delivered(old(input))]
      ensures input == if old(reading) && old(token) == null && old(length) == 0 then [] else old(input)
      ensures !reading && token == null
      ensures Hands(if outcome != [] && outcome[0].Delivered? then outcome[0].data else [], [])
    {
      eof := true;
      outcome := [];
      if reading {
        if token != null || length > 0 {
          Release();
          outcome := [EndsFalse];
        } else {
          ghost var was := input;
          var data, ok := ReadBytes(|input|);
          assert data == was && input == [];
          Release();
          outcome := [if ok then Delivered(data) else Rejected];
        }
      }
    }

    /** The ERROR branch of _ion_stream_notify. */
    method Fail() returns (outcome: seq<Outcome>)
      requires Valid()
      modifies this`error, this`token, this`reading
      ensures Valid() && error && !reading && received == old(received) && input == old(input) && low == old(low)
      ensures outcome == (if old(reading) then [Rejected] else []) && pieces == old(pieces)
    {
      error := true;
      outcome := if reading then [Rejected] else [];
      Release();
    }

    /** The program cancels the deferred of the pending read; the watermark stays. */
    method Cancel()
      requires Valid() && reading
      modifies this`token, this`reading
      ensures Valid() && !reading && received == old(received) && input == old(input) && low == old(low)
      ensures pieces == old(pieces)
    {
      Release();
    }

    /** ION\Stream::read. */
    method Read(count: int) returns (answer: Answer)
      requires Valid()
      modifies this`input, this`pieces, this`reading, this`length, this`low
      ensures Valid() && received == old(received)
      ensures old(reading) ==>
                answer == (if old(length) == Size(count) && token == null then Joins else Locked) && input == old(input)
                && low == old(low) && reading && token == old(token)
      ensures !old(reading) && |old(input)| < Size(count) ==> answer == Waits
      ensures answer.Waits? ==> reading && token == null && input == old(input) && length == Size(count) > |input|
      ensures !old(reading) && 0 < count <= |old(input)| && count < SIZE_RANGE ==>
                answer == Text(old(input)[..count]) && input == old(input)[count..]
      ensures !old(reading) && |old(input)| < count < SIZE_RANGE ==>
                answer == Waits && length == count && low == count
      ensures !old(reading) && -SIZE_RANGE <= count < 0 && |old(input)| < count + SIZE_RANGE ==>
                answer == Waits && length == count + SIZE_RANGE && low == count + SIZE_RANGE
      ensures !old(reading) && count == 0 ==> answer == if old(input) == [] then Text([]) else ReadFailed
      ensures old(reading) && 0 <= count < SIZE_RANGE ==>
                answer == if old(length) == count && token == null then Joins else Locked
      ensures !old(reading) && Size(count) <= |old(input)| ==>
                !reading && token == null && low == old(low)
                && (Size(count) > 0 || old(input) == [] ==>
                      answer.Text? && |answer.data| == Size(count) && old(input) == answer.data + input)
                && (Size(count) == 0 && old(input) != [] ==> answer == ReadFailed && input == old(input))
      ensures token == null || token == old(token)
      ensures Hands(TextOf(answer), [])
    {
      if reading {
        return if length == Size(count) && token == null then Joins else Locked;
      }
      if |input| >= Size(count) {
        var data, ok := ReadBytes(Size(count));
        answer := if ok then Text(data) else ReadFailed;
      } else {
        reading := true;
        length := Size(count);
        low := Size(count);
        answer := Waits;
      }
    }

    /** ION\Stream::readLine. */
    method ReadLine(token_: Bytes, mode: Mode, limit: int) returns (answer: Answer)
      requires Valid()
      modifies this`input, this`pieces, this`reading, this`token, this`disturbed
      ensures Valid() && received == old(received) && low == old(low)
      ensures token_ == [] ==> answer == EmptyToken && input == old(input) && reading == old(reading)
      ensures token_ != [] && old(reading) ==>
                input == old(input) && reading && token == old(token)
                && answer == (if token != null && token.token == token_ && token.mode == mode && token.length == limit
                              then Joins else Locked)
      ensures token_ != [] && !old(reading) && limit == 0 ==>
                (answer.Waits? <==> Index(old(input), token_) == -1)
                && (!answer.Waits? ==> answer.Text? && IsLine(old(input), token_, mode, answer.data, input))
      ensures answer.Waits? ==>
                input == old(input) && reading && token != null && fresh(token) && !disturbed
                && token.token == token_ && token.mode == mode && token.length == limit
      ensures token_ != [] && !old(reading) && !answer.Waits? ==> !reading && token == null
      ensures token_ != [] && !old(reading) ==>
                var b := old(input);
                Begun(b, token_, mode, limit, Find(b, token_, 0, Stop(|b|, 0, limit)), answer, input)
      ensures token_ != [] && !old(reading) && 0 < limit < SIZE_RANGE ==>
                var b, i := old(input), Index(old(input), token_);
                var seen := if |b| <= limit then |b| else limit - 1;
                Begun(b, token_, mode, limit, if i != -1 && i + |token_| <= seen then i else -1, answer, input)
      ensures answer.No? ==> limit > 0 && input == old(input)
      ensures answer.Waits? || token == null || token == old(token)
      ensures Hands(TextOf(answer), Trimmed(mode, token_))
    {
      if token_ == [] { return EmptyToken; }
      if reading {
        return if token != null && token.token == token_ && token.mode == mode && token.length == limit
               then Joins else Locked;
      }
      var t := new Token(token_, mode, limit);
      ResumedIsPlain(input, token_, 0);
      FindFrom(input, token_, limit);
      hide Find, Stop;
      ghost var was := input;
      Search(input, t);
      ghost var at := t.position;
      if t.position == -1 {
        if t.limited { return No; }
        reading, token, disturbed := true, t, false;
        answer := Waits;
      } else {
        var data := ReadToken(t);
        answer := Text(data);
      }
      assert Begun(was, token_, mode, limit, at, answer, input);
      hide Begun;
    }

    /** ION\Stream::readAll. */
    method ReadAll() returns (answer: Answer)
      requires Valid()
      modifies this`input, this`pieces, this`reading, this`length
      ensures Valid() && received == old(received) && low == old(low)
      ensures old(reading) ==>
                answer == (if token == null && length == 0 then Joins else Locked) && input == old(input) && reading
      ensures !old(reading) && (eof || error) ==> answer == Text(old(input)) && input == [] && !reading
      ensures !old(reading) && !eof && !error ==>
                answer == Waits && input == old(input) && reading && token == null && length == 0
      ensures token == null || token == old(token)
      ensures Hands(TextOf(answer), [])
    {
      if reading {
        return if token == null && length == 0 then Joins else Locked;
      }
      if eof || error {
        if |input| > 0 {
          var data, ok := ReadBytes(|input|);
          answer := if ok then Text(data) else ReadFailed;
        } else {
          answer := Text([]);
        }
      } else {
        reading, length := true, 0;
        answer := Waits;
      }
    }

    /** ION\Stream::get: takes bytes whether or not a read is pending. */
    method Get(count: int) returns (answer: Answer)
      requires Valid()
      modifies this`input, this`pieces, this`disturbed
      ensures Valid() && received == old(received) && low == old(low) && reading == old(reading) && token == old(token)
      ensures Size(count) == 0 ==> answer == Text([]) && input == old(input)
      ensures Size(count) > 0 ==>
                answer.Text? && old(input) == answer.data + input
                && |answer.data| == if Size(count) <= |old(input)| then Size(count) else |old(input)|
      ensures 0 <= count < SIZE_RANGE ==>
                var n := if count < |old(input)| then count else |old(input)|;
                answer == Text(old(input)[..n]) && input == old(input)[n..]
      ensures -SIZE_RANGE <= count < 0 && |old(input)| <= count + SIZE_RANGE ==>
                answer == Text(old(input)) && input == []
      ensures disturbed ==> old(disturbed) || input != old(input)
      ensures Hands(TextOf(answer), [])
    {
      if Size(count) == 0 { return Text([]); }
      var data, ok := ReadBytes(Size(count));
      disturbed := disturbed || data != [];
      answer := Text(data);
    }

    /** ION\Stream::getAll. */
    method GetAll() returns (answer: Answer)
      requires Valid()
      modifies this`input, this`pieces, this`disturbed
      ensures Valid() && received == old(received) && low == old(low) && reading == old(reading) && token == old(token)
      ensures answer == Text(old(input)) && input == []
      ensures disturbed ==> old(disturbed) || input != old(input)
      ensures Hands(TextOf(answer), [])
    {
      ghost var was := input;
      var data, ok := ReadBytes(|input|);
      assert data == was && input == [];
      disturbed := disturbed || data != [];
      answer := if ok then Text(data) else ReadFailed;
    }

    /** ION\Stream::getLine: as readLine, but it never waits, and it ignores a pending read. */
    method GetLine(token_: Bytes, mode: Mode, limit: int) returns (answer: Answer)
      requires Valid()
      modifies this`input, this`pieces, this`disturbed
      ensures Valid() && received == old(received) && low == old(low) && reading == old(reading) && token == old(token)
      ensures answer.No? || answer.Text?
      ensures token_ != [] ==> Took(old(input), token_, mode, Find(old(input), token_, 0, Stop(|old(input)|, 0, limit)),
                                    answer, input)
      ensures token_ != [] && limit == 0 ==> Took(old(input), token_, mode, Index(old(input), token_), answer, input)
      ensures token_ != [] && 0 < limit < SIZE_RANGE ==>
                var b, i := old(input), Index(old(input), token_);
                var seen := if |b| <= limit then |b| else limit - 1;
                Took(b, token_, mode, if i != -1 && i + |token_| <= seen then i else -1, answer, input)
      ensures answer.No? ==> input == old(input)
      ensures disturbed ==> old(disturbed) || input != old(input)
      ensures Hands(TextOf(answer), Trimmed(mode, token_))
    {
      if token_ == [] { return No; }
      var t := new Token(token_, mode, limit);
      FindFrom(input, token_, limit);
      hide Find, Stop, Index;
      Search(input, t);
      if t.position == -1 { return No; }
      ghost var was, at := input, t.position;
      var data := ReadToken(t);
      disturbed := disturbed || input != was;
      answer := Text(data);
      assert Took(was, token_, mode, at, answer, input);
      hide Took;
    }
  }

  lemma SweptLater(b: Bytes, x: Bytes, t: Bytes, o: nat)
    ensures Swept(b, t, o) ==> Swept(b + x, t, o)
  {
    if Swept(b, t, o) { SweptGrows(b, x, t, o); }
  }

  /** `line` is what a line read takes from the front of `b` when the token was found at `i`. */
  ghost predicate IsCut(b: Bytes, t: Bytes, mode: Mode, i: int, line: Bytes, rest: Bytes) {
    match mode
    case TRIM => |line| == i && b == line + t + rest
    case WITH => |line| == i + |t| && b == line + rest
    case WITHOUT => |line| == i && b == line + rest
  }

  /** The answer when the token was looked for and found at `i`, or not found. */
  ghost predicate Took(b: Bytes, t: Bytes, mode: Mode, i: int, answer: Answer, rest: Bytes) {
    if i == -1 then answer.No? && rest == b else answer.Text? && IsCut(b, t, mode, i, answer.data, rest)
  }

  /** The answer of a new line read whose token was found at `i`, or not found. */
  ghost predicate Begun(b: Bytes, t: Bytes, mode: Mode, limit: int, i: int, answer: Answer, rest: Bytes) {
    if i != -1 then answer.Text? && IsCut(b, t, mode, i, answer.data, rest)
    else rest == b && answer == if 0 < limit <= |b| && |t| <= |b| then No else Waits
  }

  /** A line that ends at the first token of all. */
  ghost predicate IsLine(b: Bytes, t: Bytes, mode: Mode, line: Bytes, rest: Bytes) {
    Index(b, t) != -1 && IsCut(b, t, mode, Index(b, t), line, rest)
  }

  /** A search from the start of the buffer, without a limit and with one. */
  lemma FindFrom(b: Bytes, t: Bytes, limit: int)
    ensures limit == 0 ==> Find(b, t, 0, Stop(|b|, 0, limit)) == Index(b, t)
    ensures 0 < limit < SIZE_RANGE ==>
              var i := Index(b, t);
              Find(b, t, 0, Stop(|b|, 0, limit))
              == if i != -1 && i + |t| <= (if |b| <= limit then |b| else limit - 1) then i else -1
  {
    if 0 < limit < SIZE_RANGE { LimitedIndex(b, t, limit); }
  }

  /** The pending line read has got the first line, or there is none. */
  ghost predicate GotNext(b: Bytes, t: Bytes, mode: Mode, outcome: seq<Outcome>, rest: Bytes) {
    || (|outcome| == 1 && outcome[0].Delivered? && IsLine(b, t, mode, outcome[0].data, rest))
    || (outcome == [] && Index(rest, t) == -1)
  }

  /** A read that is told of its input gets the next line unless its offset has passed it. */
  lemma NextExactly(b: Bytes, t: Bytes, mode: Mode, o: nat, outcome: seq<Outcome>, rest: Bytes)
    requires var i := Find(b, t, o, |b|);
             if i != -1 then |outcome| == 1 && outcome[0].Delivered? && IsCut(b, t, mode, i, outcome[0].data, rest)
             else outcome == [] && rest == b
    ensures GotNext(b, t, mode, outcome, rest) <==> Index(b, t) == -1 || o <= Index(b, t)
  {
    MissesExactly(b, t, o);
  }
}
