/** What is read from a log file, byte by byte (storage.rs), after any number of whole records. */
module LogLaws {
  import opened Wrappers
  import opened EventLogs

  // A file of records: each encoded event and the byte 10.
  lemma EncodeLaw<E(!new)>(c: Codec<E>, events: seq<E>, e: E)
    ensures Encode(c, []) == [] && Encode(c, events + [e]) == Encode(c, events) + c.enc(e) + [10]
  {
    assert (events + [e])[..|events|] == events;
    assert Encode(c, events) + (c.enc(e) + [10]) == Encode(c, events) + c.enc(e) + [10];
  }

  lemma SpaceLaw(line: Bytes)
    ensures Blank(line) <==> forall b <- line :: b in {9, 10, 12, 13, 32}
  {
    assert forall i :: 0 <= i < |line| ==> line[i] in line;
  }

  // A last line without its newline: whole, it is an event and gets the newline; blank, it stays; torn, it
  // is cut off.
  lemma LastLineLaw<E(!new)>(c: Codec<E>, events: seq<E>, tail: Bytes)
    requires ValidCodec(c) && tail != [] && 10 !in tail
    ensures var file := Encode(c, events);
      Recover(c, file + tail) ==
        if forall b <- tail :: b in {9, 12, 13, 32} then Some((events, file + tail + [10]))
        else match c.parse(tail)
          case Some(e) => Some((events + [e], file + tail + [10]))
          case None => Some((events, file))
  {
    hide ValidCodec, Read, Encode, Blank, Terminated;
    var file := Encode(c, events);
    CleanEncode(c, events);
    ReadAfterClean(c, file, events, tail);
    SpaceLaw(tail);
    assert (forall b <- tail :: b in {9, 10, 12, 13, 32}) <==> forall b <- tail :: b in {9, 12, 13, 32};
    OneLine(tail);
    LastRead(c, tail);
    if Blank(tail) || c.parse(tail).Some? {
      assert (file + tail)[..|file| + |tail|] == file + tail;
      assert events + [] == events;
      Unended(file, tail);
    } else {
      assert (file + tail)[..|file| + 0] == file && events + [] == events;
      EndsClean(c, file, events);
    }
  }

  lemma Unended(file: Bytes, tail: Bytes)
    requires tail != [] && 10 !in tail
    ensures Terminated(file + tail) == file + tail + [10]
  {
    assert (file + tail)[|file + tail| - 1] == tail[|tail| - 1];
  }

  lemma EndsClean<E(!new)>(c: Codec<E>, b: Bytes, events: seq<E>)
    requires Clean(c, b, events)
    ensures Terminated(b) == b
  {}

  lemma {:induction false} OneLine(tail: Bytes)
    requires tail != [] && 10 !in tail
    ensures LineLength(tail) == |tail|
  {
    if |tail| > 1 {
      OneLine(tail[1..]);
    }
  }

  lemma LastRead<E(!new)>(c: Codec<E>, tail: Bytes)
    requires tail != [] && LineLength(tail) == |tail|
    ensures Read(c, tail) ==
      if Blank(tail) then Some(Found([], |tail|, false))
      else match c.parse(tail)
        case Some(e) => Some(Found([e], |tail|, false))
        case None => Some(Found([], 0, true))
  {
    assert tail[..|tail|] == tail && tail[|tail|..] == [];
    NothingRead(c);
    var none: seq<E> := [];
    assert none + none == none;
    match c.parse(tail)
    case Some(e) => assert [e] + none == [e];
    case None =>
  }
}
