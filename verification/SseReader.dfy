/**
 The incremental server-sent-event reader (transport.rs): whatever chunks a response arrives in, it
 yields the events of a batch parse of the whole stream. Strings are their UTF-8 bytes.
 */
module SseReaders {
  import opened Wrappers

  type byte = n: int | 0 <= n < 256
  type Bytes = seq<byte>

  const LF: byte := 10
  const CR: byte := 13
  const COLON: byte := 58
  const SPACE: byte := 32
  const USIZE_MAX: int := 0xFFFF_FFFF_FFFF_FFFF
  const EVENT: Bytes := [101, 118, 101, 110, 116]
  const DATA: Bytes := [100, 97, 116, 97]

  datatype Error = Closed | Limit | Transport | BadUtf8 | BadData
  datatype Message = Message(event: Bytes, data: Bytes)

  predicate Continuation(b: byte) {
    128 <= b < 192
  }

  // The length of the well-formed UTF-8 character `s` starts with, or 0 (RFC 3629, section 4).
  function CharLength(s: Bytes): (n: nat)
    ensures n <= |s|
  {
    if s == [] then 0
    else if s[0] < 128 then 1
    else if 194 <= s[0] <= 223 && |s| >= 2 && Continuation(s[1]) then 2
    else if |s| >= 3 && Continuation(s[1]) && Continuation(s[2])
      && ((s[0] == 224 && s[1] >= 160) || 225 <= s[0] <= 236 || (s[0] == 237 && s[1] < 160) || 238 <= s[0] <= 239)
    then 3
    else if |s| >= 4 && Continuation(s[1]) && Continuation(s[2]) && Continuation(s[3])
      && ((s[0] == 240 && s[1] >= 144) || 241 <= s[0] <= 243 || (s[0] == 244 && s[1] < 144)) then 4
    else 0
  }

  predicate Utf8(s: Bytes) {
    s == [] || (CharLength(s) > 0 && Utf8(s[CharLength(s)..]))
  }

  predicate IsEnd(b: byte) {
    b == LF || b == CR
  }

  // Position of the first line end, or the length if there is none.
  function EndOf(s: Bytes): (n: nat)
    ensures n <= |s| && (n < |s| ==> IsEnd(s[n])) && forall i :: 0 <= i < n ==> !IsEnd(s[i])
  {
    if s == [] || IsEnd(s[0]) then 0 else 1 + EndOf(s[1..])
  }

  // ---- the batch parse

  // The ended lines of a stream, CR, LF and CRLF each ending one; an unended rest is no line.
  function Lines(s: Bytes): seq<Bytes>
    decreases |s|
  {
    var n := EndOf(s);
    if n == |s| then []
    else
      var after := if s[n] == CR && n + 1 < |s| && s[n + 1] == LF then n + 2 else n + 1;
      [s[..n]] + Lines(s[after..])
  }

  // A field line: the name before the first colon, the value after it less one leading space.
  function FieldOf(line: Bytes): (Bytes, Bytes) {
    var n := ColonAt(line);
    if n == |line| then (line, [])
    else (line[..n], if n + 1 < |line| && line[n + 1] == SPACE then line[n + 2..] else line[n + 1..])
  }

  function ColonAt(s: Bytes): (n: nat)
    ensures n <= |s| && (n < |s| ==> s[n] == COLON)
  {
    if s == [] || s[0] == COLON then 0 else 1 + ColonAt(s[1..])
  }

  // What a field line does to the two buffers.
  function Field(event: Bytes, data: Bytes, line: Bytes): (Bytes, Bytes) {
    var (name, value) := FieldOf(line);
    if name == EVENT then (value, data)
    else if name == DATA then (event, data + value + [LF])
    else (event, data)
  }

  // Interpreting lines from given buffers: the messages dispatched, and whether a line was no UTF-8.
  function Interpret(event: Bytes, data: Bytes, lines: seq<Bytes>): (seq<Message>, bool)
    decreases |lines|
  {
    if lines == [] then ([], false)
    else if !Utf8(lines[0]) then ([], true)
    else if lines[0] == [] then
      if data == [] then Interpret([], [], lines[1..])
      else
        var (ms, bad) := Interpret([], [], lines[1..]);
        ([Message(event, data[..|data| - 1])] + ms, bad)
    else
      var (e, d) := Field(event, data, lines[0]);
      Interpret(e, d, lines[1..])
  }

  // All messages of a stream, and whether it stops at a line that is no UTF-8.
  function Batch(stream: Bytes): (seq<Message>, bool) {
    Interpret([], [], Lines(stream))
  }

  // ---- the reader

  // A line feed completing a CRLF whose CR ended the previous line is skipped.
  function Pending(s: Bytes, pendingCr: bool): Bytes {
    if pendingCr && s != [] && s[0] == LF then s[1..] else s
  }

  // What a reader with these buffers still reports when `rest` is unread.
  function Left(event: Bytes, data: Bytes, rest: Bytes, pendingCr: bool): (seq<Message>, bool) {
    Interpret(event, data, Lines(Pending(rest, pendingCr)))
  }

  function Concat(chunks: seq<Bytes>): Bytes {
    if chunks == [] then [] else chunks[0] + Concat(chunks[1..])
  }

  // The data buffer is empty or text and a final line feed.
  predicate DataShape(data: Bytes) {
    data != [] ==> data[|data| - 1] == LF && Utf8(data[..|data| - 1])
  }

  class SseReader {
    var chunks: seq<Bytes>   // what the response will still deliver
    const ending: Error      // and what it reports then: its end or a transport error
    var buffer: Bytes
    var event: Bytes
    var data: Bytes
    var total: int
    const limit: int
    var pendingCr: bool

    // Everything the reader has not consumed, delivered or not.
    ghost function Rest(): Bytes
      reads this
    {
      buffer + Concat(chunks)
    }

    ghost predicate Valid()
      reads this
    {
      ending in {Closed, Transport} && 0 <= total <= USIZE_MAX && limit <= USIZE_MAX && DataShape(data)
    }

    // The undelivered rest of the stream fits the limit.
    ghost predicate Within()
      reads this
    {
      total + |Concat(chunks)| <= limit
    }

    // What is left to report: the messages of the unread lines from the current buffers on.
    ghost function Remaining(): (seq<Message>, bool)
      reads this
    {
      Left(event, data, Rest(), pendingCr)
    }

    constructor (chunks: seq<Bytes>, ending: Error, limit: int)
      requires ending in {Closed, Transport} && limit <= USIZE_MAX
      ensures Valid() && Remaining() == Batch(Concat(chunks))
      ensures Within() <==> |Concat(chunks)| <= limit
      ensures this.ending == ending
    {
      this.chunks, this.ending, this.limit := chunks, ending, limit;
      buffer, event, data, total, pendingCr := [], [], [], 0, false;
      new;
      assert Rest() == Concat(chunks);
    }

    // One message, or the error that ends the stream. Only a stream over its limit meets `Limit`.
    method Next() returns (r: Result<Message, Error>)
      requires Valid()
      modifies this
      ensures Valid() && (old(Within()) ==> Within())
      ensures match r
        case Ok(m) => old(Remaining()) == ([m] + Remaining().0, Remaining().1) && |Rest()| < old(|Rest()|)
        case Err(Limit) => !old(Within())
        case Err(e) => old(Remaining()) == ([], e == BadUtf8) && (e == BadUtf8 || e == ending)
    {
      hide Left, Concat, EndOf, Utf8, FieldOf, Field, Lines, Interpret, Pending, ColonAt, CharLength, Batch, DataShape;
      while true
        invariant Valid() && (old(Within()) ==> Within())
        invariant Remaining() == old(Remaining())
        invariant |Rest()| <= old(|Rest()|)
        decreases |Rest()|, |chunks|
      {
        ghost var rest := Rest();
        var end := EndOf(buffer);
        if end < |buffer| {
          var line := buffer[..end];
          var delimiter := buffer[end];
          FirstEnd(buffer, Concat(chunks));
          buffer := buffer[end + 1..];
          assert Rest() == rest[end + 1..] && rest[..end] == line && rest[end] == delimiter;
          if pendingCr && end == 0 && delimiter == LF {
            SkipLineFeed(event, data, rest);
            pendingCr := false;
            continue;
          }
          ghost var was := pendingCr;
          pendingCr := delimiter == CR;
          if !Utf8(line) {
            TakeLine(event, data, rest, was);
            return Err(BadUtf8);
          }
          if line == [] {
            TakeEmptyLine(event, data, rest, was);
            if data == [] {
              event := [];
              continue;
            }
            var whole := data[..|data| - 1];
            DataIsText(data);
            r := if Utf8(whole) then Ok(Message(event, whole)) else Err(BadData);
            event, data := [], [];
            return;
          }
          TakeField(event, data, rest, was);
          var (name, value) := FieldOf(line);
          if name == EVENT {
            event := value;
          } else if name == DATA {
            data := data + value + [LF];
          }
        } else {
          if chunks == [] {
            ConcatNone();
            Unended(event, data, buffer, pendingCr);
            assert rest == buffer;
            return Err(ending);
          }
          var chunk := chunks[0];
          ConcatFirst(chunks);
          if total + |chunk| > USIZE_MAX {
            return Err(Limit);
          }
          total := total + |chunk|;
          if total > limit {
            return Err(Limit);
          }
          buffer := buffer + chunk;
          chunks := chunks[1..];
          assert Rest() == rest;
        }
      }
    }
  }

  // Reading a response to its end: for every split of a stream into chunks, the same messages
  // and the same kind of end as the batch parse of the whole stream.
  method ReadAll(chunks: seq<Bytes>, ending: Error, limit: int) returns (ms: seq<Message>, e: Error)
    requires ending in {Closed, Transport} && |Concat(chunks)| <= limit <= USIZE_MAX
    ensures ms == Batch(Concat(chunks)).0
    ensures e == if Batch(Concat(chunks)).1 then BadUtf8 else ending
  {
    hide Left, Batch, Concat;
    var reader := new SseReader(chunks, ending, limit);
    ms := [];
    assert ms + reader.Remaining().0 == reader.Remaining().0;
    while true
      invariant fresh(reader) && reader.Valid() && reader.Within() && reader.ending == ending
      invariant Batch(Concat(chunks)) == (ms + reader.Remaining().0, reader.Remaining().1)
      decreases |reader.Rest()|
    {
      ghost var tail := reader.Remaining().0;
      var r := reader.Next();
      assert r.Ok? ==> ms + tail == ms + [r.value] + reader.Remaining().0;
      match r
      case Ok(m) => ms := ms + [m];
      case Err(err) => return ms, err;
    }
  }

  // Even over the limit, what a reader reports is what the batch parse reports first.
  method ReadUpTo(chunks: seq<Bytes>, ending: Error, limit: int) returns (ms: seq<Message>, e: Error)
    requires ending in {Closed, Transport} && limit <= USIZE_MAX
    ensures ms <= Batch(Concat(chunks)).0
    ensures e == Limit ==> |Concat(chunks)| > limit
    ensures e != Limit ==> ms == Batch(Concat(chunks)).0 && e == if Batch(Concat(chunks)).1 then BadUtf8 else ending
  {
    hide Left, Batch, Concat;
    var reader := new SseReader(chunks, ending, limit);
    ms := [];
    assert ms + reader.Remaining().0 == reader.Remaining().0;
    while true
      invariant fresh(reader) && reader.Valid() && reader.ending == ending
      invariant |Concat(chunks)| <= limit ==> reader.Within()
      invariant Batch(Concat(chunks)) == (ms + reader.Remaining().0, reader.Remaining().1)
      decreases |reader.Rest()|
    {
      ghost var tail := reader.Remaining().0;
      var r := reader.Next();
      assert r.Ok? ==> ms + tail == ms + [r.value] + reader.Remaining().0;
      match r
      case Ok(m) => ms := ms + [m];
      case Err(err) => return ms, err;
    }
  }

  lemma ConcatNone()
    ensures Concat([]) == []
  {}

  lemma ConcatFirst(chunks: seq<Bytes>)
    requires chunks != []
    ensures Concat(chunks) == chunks[0] + Concat(chunks[1..])
  {}

  // The first line end of the buffer is the first of the whole rest.
  lemma {:induction false} FirstEnd(a: Bytes, b: Bytes)
    requires EndOf(a) < |a|
    ensures EndOf(a + b) == EndOf(a)
  {
    if !IsEnd(a[0]) {
      assert (a + b)[1..] == a[1..] + b;
      FirstEnd(a[1..], b);
    }
  }

  lemma SkipLineFeed(event: Bytes, data: Bytes, rest: Bytes)
    requires rest != [] && rest[0] == LF
    ensures Left(event, data, rest, true) == Left(event, data, rest[1..], false)
  {
    hide Lines, Interpret;
  }

  lemma Unended(event: Bytes, data: Bytes, rest: Bytes, pendingCr: bool)
    requires EndOf(rest) == |rest|
    ensures Left(event, data, rest, pendingCr) == ([], false)
  {
    assert Pending(rest, pendingCr) == rest;
  }

  lemma LinesUnfold(s: Bytes)
    requires EndOf(s) < |s|
    ensures var n := EndOf(s);
      Lines(s) == [s[..n]] + Lines(Pending(s[n + 1..], s[n] == CR))
  {
    var n := EndOf(s);
    if s[n] == CR && n + 1 < |s| && s[n + 1] == LF {
      assert s[n + 1..][1..] == s[n + 2..];
    }
  }

  // Taking one line off the rest, when its first byte does not merely complete a CRLF.
  lemma TakeLine(event: Bytes, data: Bytes, rest: Bytes, pendingCr: bool)
    requires EndOf(rest) < |rest| && !(pendingCr && rest[0] == LF)
    ensures var n := EndOf(rest);
      var after := rest[n + 1..];
      var was := Left(event, data, rest, pendingCr);
      if !Utf8(rest[..n]) then was == ([], true)
      else if n > 0 then
        var (e, d) := Field(event, data, rest[..n]);
        was == Left(e, d, after, rest[n] == CR)
      else if data == [] then was == Left([], [], after, rest[n] == CR)
      else
        var later := Left([], [], after, rest[n] == CR);
        was == ([Message(event, data[..|data| - 1])] + later.0, later.1)
  {
    hide Lines, EndOf, Field, Utf8;
    var n := EndOf(rest);
    LinesUnfold(rest);
    var tail := Lines(Pending(rest[n + 1..], rest[n] == CR));
    var lines := [rest[..n]] + tail;
    assert lines[0] == rest[..n] && lines[1..] == tail;
  }

  lemma TakeEmptyLine(event: Bytes, data: Bytes, rest: Bytes, pendingCr: bool)
    requires EndOf(rest) == 0 < |rest| && !(pendingCr && rest[0] == LF)
    ensures var later := Left([], [], rest[1..], rest[0] == CR);
      Left(event, data, rest, pendingCr) ==
        if data == [] then later else ([Message(event, data[..|data| - 1])] + later.0, later.1)
  {
    hide Left;
    TakeLine(event, data, rest, pendingCr);
    assert rest[..0] == [];
  }

  lemma TakeField(event: Bytes, data: Bytes, rest: Bytes, pendingCr: bool)
    requires 0 < EndOf(rest) < |rest| && !(pendingCr && rest[0] == LF) && Utf8(rest[..EndOf(rest)]) && DataShape(data)
    ensures var (name, value) := FieldOf(rest[..EndOf(rest)]);
      var e := if name == EVENT then value else event;
      var d := if name == DATA then data + value + [LF] else data;
      Left(event, data, rest, pendingCr) == Left(e, d, rest[EndOf(rest) + 1..], rest[EndOf(rest)] == CR) && DataShape(d)
  {
    hide Left, Utf8, FieldOf, EndOf, DataShape;
    TakeLine(event, data, rest, pendingCr);
    DataKeepsShape(event, data, rest[..EndOf(rest)]);
  }

  // ---- data handed out is always text

  lemma {:induction false} Utf8Joins(a: Bytes, b: Bytes)
    requires Utf8(a) && Utf8(b)
    ensures Utf8(a + b)
    decreases |a|
  {
    if a == [] {
      assert a + b == b;
    } else {
      var n := CharLength(a);
      assert CharLength(a + b) == n;
      assert (a + b)[n..] == a[n..] + b;
      Utf8Joins(a[n..], b);
    }
  }

  lemma Utf8Step(s: Bytes)
    requires s != []
    ensures Utf8(s) <==> CharLength(s) > 0 && Utf8(s[CharLength(s)..])
  {}

  // A byte below 128 is a whole character, so text may be cut before and after it.
  lemma {:induction false} Utf8Cut(s: Bytes, k: nat)
    requires Utf8(s) && k < |s| && s[k] < 128
    ensures Utf8(s[..k]) && Utf8(s[k + 1..])
    decreases |s|
  {
    hide CharLength, Utf8;
    Utf8Step(s);
    CharIsWhole(s, k);
    NoText();
    var n := CharLength(s);
    if k == 0 {
      assert s[..0] == [];
    } else {
      var rest := s[n..];
      assert rest[k - n] == s[k];
      Utf8Cut(rest, k - n);
      assert rest[..k - n] == s[..k][n..] && rest[k - n + 1..] == s[k + 1..];
      Utf8Step(s[..k]);
    }
  }

  // No character spans a byte below 128, and what follows a character does not matter to it.
  lemma CharIsWhole(s: Bytes, k: nat)
    requires k < |s| && s[k] < 128 && CharLength(s) > 0
    ensures if k == 0 then CharLength(s) == 1 else CharLength(s) <= k && CharLength(s[..k]) == CharLength(s)
  {}

  lemma NoText()
    ensures Utf8([])
  {}

  lemma DataKeepsShape(event: Bytes, data: Bytes, line: Bytes)
    requires DataShape(data) && Utf8(line)
    ensures DataShape(Field(event, data, line).1)
  {
    hide Utf8, FieldOf;
    var (name, value) := FieldOf(line);
    if name == DATA {
      ValueIsText(line);
      if data != [] {
        var text := data[..|data| - 1];
        assert data == text + [LF];
        OneLineFeed();
        Utf8Joins(text, [LF]);
        Utf8Joins(data, value);
      } else {
        assert data + value == value;
      }
      assert (data + value + [LF])[..|data + value|] == data + value;
    }
  }

  lemma DataIsText(data: Bytes)
    requires DataShape(data) && data != []
    ensures Utf8(data[..|data| - 1]) && DataShape([])
  {}

  lemma OneLineFeed()
    ensures Utf8([LF])
  {
    assert CharLength([LF]) == 1 && [LF][1..] == [];
  }

  lemma ValueIsText(line: Bytes)
    requires Utf8(line)
    ensures Utf8(FieldOf(line).1)
  {
    var n := ColonAt(line);
    if n < |line| {
      Utf8Cut(line, n);
      if n + 1 < |line| && line[n + 1] == SPACE {
        Utf8Cut(line[n + 1..], 0);
        assert line[n + 1..][1..] == line[n + 2..];
      }
    }
  }
}
