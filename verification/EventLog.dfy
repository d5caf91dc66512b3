/**
 The JSONL event log at the level of bytes (storage.rs): reading repairs a torn tail, appending
 writes one record and a newline, replacing renames a whole new file into place.
 JSON is an opaque encoding; only what ValidCodec says of it is used.
 */
module EventLogs {
  import opened Wrappers

  type byte = n: int | 0 <= n < 256
  type Bytes = seq<byte>

  const NL: byte := 10

  predicate IsSpace(b: byte) {
    b == 9 || b == 10 || b == 12 || b == 13 || b == 32
  }

  predicate Blank(line: Bytes) {
    forall i :: 0 <= i < |line| ==> IsSpace(line[i])
  }

  datatype Codec<!E(!new)> = Codec(enc: E -> Bytes, parse: Bytes -> Option<E>)

  // Encoded objects hold no raw newline; a strict prefix of one neither parses nor is all
  // whitespace; and a newline after a text does not change what it parses to.
  ghost predicate ValidCodec<E(!new)>(c: Codec<E>) {
    && (forall e :: c.enc(e) != [] && NL !in c.enc(e) && !Blank(c.enc(e)) && c.parse(c.enc(e)) == Some(e))
    && (forall e, n :: 0 < n < |c.enc(e)| ==> c.parse(c.enc(e)[..n]) == None && !Blank(c.enc(e)[..n]))
    && (forall l: Bytes :: NL !in l ==> c.parse(l + [NL]) == c.parse(l))
  }

  // Length of the first line, its newline included.
  function LineLength(b: Bytes): (n: nat)
    requires b != []
    ensures 0 < n <= |b|
    ensures NL !in b[..n - 1] && (b[n - 1] == NL || n == |b|)
  {
    if b[0] == NL || |b| == 1 then 1
    else
      var m := LineLength(b[1..]);
      assert b[..m] == [b[0]] + b[1..][..m - 1];
      1 + m
  }

  function Lines(b: Bytes): seq<Bytes> {
    if b == [] then [] else var n := LineLength(b); [b[..n]] + Lines(b[n..])
  }

  // What a reading finds: the events, the length of the valid prefix, and whether a torn line follows.
  datatype Found<E> = Found(events: seq<E>, valid: nat, torn: bool)

  function Shift<E>(events: seq<E>, base: nat, r: Option<Found<E>>): Option<Found<E>> {
    if r.None? then None else Some(Found(events + r.value.events, base + r.value.valid, r.value.torn))
  }

  // One line in front of a rest that was read to `r`.
  function AfterLine<E(!new)>(c: Codec<E>, line: Bytes, restBlank: bool, r: Option<Found<E>>): Option<Found<E>> {
    if Blank(line) then Shift([], |line|, r)
    else match c.parse(line)
      case Some(e) => Shift([e], |line|, r)
      case None => if restBlank then Some(Found([], 0, true)) else None
  }

  function Read<E(!new)>(c: Codec<E>, b: Bytes): (r: Option<Found<E>>)
    ensures r.Some? ==> r.value.valid <= |b| && (!r.value.torn ==> r.value.valid == |b|)
  {
    if b == [] then Some(Found([], 0, false))
    else
      var n := LineLength(b);
      AfterLine(c, b[..n], Blank(b[n..]), Read(c, b[n..]))
  }

  // A record must end its line before the next one is appended.
  function Terminated(b: Bytes): Bytes {
    if b != [] && b[|b| - 1] != NL then b + [NL] else b
  }

  // The events of a log file and the file after the reading, or None if the log is corrupt.
  function Recover<E(!new)>(c: Codec<E>, b: Bytes): Option<(seq<E>, Bytes)> {
    match Read(c, b)
    case None => None
    case Some(f) => Some((f.events, Terminated(b[..f.valid])))
  }

  function Record<E(!new)>(c: Codec<E>, e: E): Bytes {
    c.enc(e) + [NL]
  }

  function Encode<E(!new)>(c: Codec<E>, events: seq<E>): Bytes {
    if events == [] then [] else Encode(c, events[..|events| - 1]) + Record(c, events[|events| - 1])
  }

  // A file that reads back whole and ends between lines.
  ghost predicate Clean<E(!new)>(c: Codec<E>, b: Bytes, events: seq<E>) {
    Read(c, b) == Some(Found(events, |b|, false)) && (b != [] ==> b[|b| - 1] == NL)
  }

  // A line, with its newline unless it is the last.
  ghost predicate IsLine(l: Bytes, last: bool) {
    l != [] && NL !in l[..|l| - 1] && (last || l[|l| - 1] == NL)
  }

  lemma {:induction false} LineLengthIs(line: Bytes, rest: Bytes)
    requires IsLine(line, rest == [])
    ensures LineLength(line + rest) == |line|
  {
    if |line| > 1 {
      assert line[0] == line[..|line| - 1][0];
      assert (line + rest)[1..] == line[1..] + rest;
      assert line[1..][..|line| - 2] == line[..|line| - 1][1..];
      LineLengthIs(line[1..], rest);
    }
  }

  lemma ReadStep<E(!new)>(c: Codec<E>, line: Bytes, rest: Bytes)
    requires IsLine(line, rest == [])
    ensures Read(c, line + rest) == AfterLine(c, line, Blank(rest), Read(c, rest))
  {
    hide AfterLine, Blank;
    LineLengthIs(line, rest);
    assert (line + rest)[..|line|] == line && (line + rest)[|line|..] == rest;
  }

  // The first line and the rest of a nonempty text.
  lemma FirstLine(b: Bytes) returns (line: Bytes, rest: Bytes)
    requires b != []
    ensures b == line + rest && IsLine(line, rest == []) && |rest| < |b|
  {
    var n := LineLength(b);
    line, rest := b[..n], b[n..];
    assert line[..n - 1] == b[..n - 1];
  }

  lemma {:induction false} AfterLineShift<E(!new)>(
    c: Codec<E>, line: Bytes, blank0: bool, blank1: bool, events: seq<E>, m: nat, r: Option<Found<E>>)
    requires var f := AfterLine(c, line, blank0, Some(Found(events, m, false))); f.Some? && !f.value.torn
    ensures var f := AfterLine(c, line, blank0, Some(Found(events, m, false))).value;
      AfterLine(c, line, blank1, Shift(events, m, r)) == Shift(f.events, f.valid, r)
  {
    if Blank(line) {
      ShiftTwice([], events, |line|, m, r);
    } else {
      ShiftTwice([c.parse(line).value], events, |line|, m, r);
    }
  }

  lemma AfterLineWhole<E(!new)>(c: Codec<E>, line: Bytes, restBlank: bool, r: Option<Found<E>>)
    requires var f := AfterLine(c, line, restBlank, r); f.Some? && !f.value.torn
    ensures r.Some? && !r.value.torn && AfterLine(c, line, restBlank, r).value.valid == |line| + r.value.valid
  {}

  lemma LastByte(a: Bytes, b: Bytes)
    requires a + b != [] && (a + b)[|a + b| - 1] == NL
    ensures if b == [] then a[|a| - 1] == NL else b[|b| - 1] == NL
  {}

  lemma CleanTail<E(!new)>(c: Codec<E>, line: Bytes, rest: Bytes, events: seq<E>)
    requires IsLine(line, rest == []) && Clean(c, line + rest, events)
    ensures IsLine(line, false) && Read(c, rest).Some?
    ensures Clean(c, rest, Read(c, rest).value.events)
    ensures AfterLine(c, line, Blank(rest), Read(c, rest)) == Some(Found(events, |line| + |rest|, false))
  {
    hide Read, AfterLine, Blank;
    ReadStep(c, line, rest);
    AfterLineWhole(c, line, Blank(rest), Read(c, rest));
    LastByte(line, rest);
  }

  // After a clean file the reading goes on as if it started there.
  lemma {:induction false} ReadAfterClean<E(!new)>(c: Codec<E>, a: Bytes, events: seq<E>, b: Bytes)
    requires Clean(c, a, events)
    ensures Read(c, a + b) == Shift(events, |a|, Read(c, b))
    decreases |a|
  {
    hide *;
    CleanIsWhole(c, a, events);
    if a == [] {
      NothingRead(c);
      assert a + b == b && events == [];
      NoShift(Read(c, b));
    } else {
      var line, rest := FirstLine(a);
      CleanTail(c, line, rest, events);
      var g := Read(c, rest).value;
      CleanIsWhole(c, rest, g.events);
      ReadAfterClean(c, rest, g.events, b);
      assert a + b == line + (rest + b);
      IsLineAnywhere(line, rest + b == []);
      ReadStep(c, line, rest + b);
      AfterLineShift(c, line, Blank(rest), Blank(rest + b), g.events, |rest|, Read(c, b));
    }
  }

  lemma IsLineAnywhere(line: Bytes, last: bool)
    requires IsLine(line, false)
    ensures IsLine(line, last)
  {}

  lemma CleanIsWhole<E(!new)>(c: Codec<E>, b: Bytes, events: seq<E>)
    requires Clean(c, b, events)
    ensures Read(c, b) == Some(Found(events, |b|, false))
  {}

  lemma ReadRecord<E(!new)>(c: Codec<E>, e: E)
    requires ValidCodec(c)
    ensures Read(c, Record(c, e)) == Some(Found([e], |Record(c, e)|, false))
    ensures Read(c, c.enc(e)) == Some(Found([e], |c.enc(e)|, false))
  {
    var text := c.enc(e);
    assert text + [] == text && Record(c, e) + [] == Record(c, e);
    assert Record(c, e)[..|text|] == text;
    ReadStep(c, text, []);
    ReadStep(c, Record(c, e), []);
    BlankSplit(text, [NL]);
    assert [e] + [] == [e];
  }

  lemma ReadTorn<E(!new)>(c: Codec<E>, e: E, n: nat)
    requires ValidCodec(c) && 0 < n < |c.enc(e)|
    ensures Read(c, c.enc(e)[..n]) == Some(Found([], 0, true))
  {
    var part := c.enc(e)[..n];
    assert part + [] == part;
    ReadStep(c, part, []);
  }

  lemma CleanAppend<E(!new)>(c: Codec<E>, b: Bytes, events: seq<E>, e: E)
    requires ValidCodec(c) && Clean(c, b, events)
    ensures Clean(c, b + Record(c, e), events + [e])
  {
    ReadRecord(c, e);
    ReadAfterClean(c, b, events, Record(c, e));
  }

  lemma {:induction false} CleanEncode<E(!new)>(c: Codec<E>, events: seq<E>)
    requires ValidCodec(c)
    ensures Clean(c, Encode(c, events), events)
  {
    if events != [] {
      var n := |events| - 1;
      CleanEncode(c, events[..n]);
      CleanAppend(c, Encode(c, events[..n]), events[..n], events[n]);
      assert events[..n] + [events[n]] == events;
    }
  }

  lemma NothingRead<E(!new)>(c: Codec<E>)
    ensures Read(c, []) == Some(Found([], 0, false))
  {}

  // The valid prefix of any readable file reads back alone, with nothing torn.
  lemma {:induction false} ValidPrefixReads<E(!new)>(c: Codec<E>, b: Bytes)
    requires Read(c, b).Some?
    ensures var f := Read(c, b).value; Read(c, b[..f.valid]) == Some(Found(f.events, f.valid, false))
    decreases |b|
  {
    if b != [] {
      var line, rest := FirstLine(b);
      ReadStep(c, line, rest);
      NothingRead(c);
      var f := Read(c, b).value;
      hide Read;
      if Blank(line) || c.parse(line).Some? {
        ValidPrefixReads(c, rest);
        var g := Read(c, rest).value;
        assert b[..f.valid] == line + rest[..g.valid];
        ReadStep(c, line, rest[..g.valid]);
      } else {
        assert b[..0] == [];
      }
    }
  }

  // Adding the missing newline of the last line changes nothing that is read.
  lemma {:induction false} TerminatedReads<E(!new)>(c: Codec<E>, b: Bytes, events: seq<E>)
    requires ValidCodec(c) && Read(c, b) == Some(Found(events, |b|, false))
    ensures Read(c, Terminated(b)) == Some(Found(events, |Terminated(b)|, false))
    decreases |b|
  {
    hide Read, Blank, ValidCodec, AfterLine, IsLine;
    if b != [] && b[|b| - 1] != NL {
      var line, rest := FirstLine(b);
      ReadStep(c, line, rest);
      AfterLineWhole(c, line, Blank(rest), Read(c, rest));
      if rest == [] {
        assert b == line;
        LastLineReads(c, line);
      } else {
        assert b[|b| - 1] == rest[|rest| - 1];
        var g := Read(c, rest).value;
        TerminatedReads(c, rest, g.events);
        assert b + [NL] == line + (rest + [NL]);
        ReadStep(c, line, rest + [NL]);
        AfterLineShift(c, line, Blank(rest), Blank(rest + [NL]), g.events, |rest|, Some(Found([], 1, false)));
        assert g.events + [] == g.events && events + [] == events;
      }
    }
  }

  lemma LastLineReads<E(!new)>(c: Codec<E>, line: Bytes)
    requires ValidCodec(c) && IsLine(line, true) && line[|line| - 1] != NL
    requires Read(c, line).Some? && !Read(c, line).value.torn
    ensures var f := Read(c, line).value; Read(c, line + [NL]) == Some(Found(f.events, |line| + 1, false))
  {
    assert line == line[..|line| - 1] + [line[|line| - 1]];
    assert NL !in line;
    assert line + [] == line && line + [NL] + [] == line + [NL] && (line + [NL])[..|line|] == line;
    ReadStep(c, line, []);
    ReadStep(c, line + [NL], []);
    BlankSplit(line, [NL]);
    hide Blank;
  }

  // A reading repairs: whatever the bytes were, if the log is readable the file left behind is
  // clean and holds exactly the events returned, so reading again changes nothing.
  lemma RecoveryRepairs<E(!new)>(c: Codec<E>, b: Bytes)
    requires ValidCodec(c) && Recover(c, b).Some?
    ensures var (events, file) := Recover(c, b).value;
      Clean(c, file, events) && Recover(c, file) == Some((events, file))
  {
    hide Read, ValidCodec;
    var f := Read(c, b).value;
    ValidPrefixReads(c, b);
    TerminatedReads(c, b[..f.valid], f.events);
    var file := Terminated(b[..f.valid]);
    assert file[..|file|] == file;
  }

  // The repair is itself two writes; a crash between them leaves a file with the same repair.
  lemma RecoverySurvivesCrash<E(!new)>(c: Codec<E>, b: Bytes)
    requires Recover(c, b).Some?
    ensures Recover(c, b[..Read(c, b).value.valid]) == Recover(c, b)
  {
    hide Read;
    ValidPrefixReads(c, b);
    var kept := b[..Read(c, b).value.valid];
    assert kept[..|kept|] == kept;
  }

  lemma RecoverWhole<E(!new)>(c: Codec<E>, b: Bytes, events: seq<E>)
    requires Clean(c, b, events)
    ensures Recover(c, b) == Some((events, b))
  {
    assert b[..|b|] == b;
  }

  // Append is crash-atomic: any byte prefix of the record written after a repaired file is read
  // back as the old events or as the old events and the new one, and is repaired to a clean file.
  lemma AppendIsCrashAtomic<E(!new)>(c: Codec<E>, b: Bytes, events: seq<E>, e: E, written: nat)
    requires ValidCodec(c) && Clean(c, b, events) && written <= |Record(c, e)|
    ensures Recover(c, b + Record(c, e)[..written]) ==
      if written < |c.enc(e)| then Some((events, b)) else Some((events + [e], b + Record(c, e)))
  {
    var part := Record(c, e)[..written];
    if written == 0 {
      assert b + part == b;
      RecoverWhole(c, b, events);
    } else if written < |c.enc(e)| {
      assert part == c.enc(e)[..written];
      TornAppend(c, b, events, e, written);
    } else if written == |c.enc(e)| {
      assert part == c.enc(e);
      UnterminatedAppend(c, b, events, e);
    } else {
      assert part == Record(c, e);
      CleanAppend(c, b, events, e);
      RecoverWhole(c, b + part, events + [e]);
    }
  }

  lemma TornAppend<E(!new)>(c: Codec<E>, b: Bytes, events: seq<E>, e: E, n: nat)
    requires ValidCodec(c) && Clean(c, b, events) && 0 < n < |c.enc(e)|
    ensures Recover(c, b + c.enc(e)[..n]) == Some((events, b))
  {
    hide Read, ValidCodec;
    ReadTorn(c, e, n);
    ReadAfterClean(c, b, events, c.enc(e)[..n]);
    assert events + [] == events && (b + c.enc(e)[..n])[..|b|] == b;
  }

  lemma EncodedEnd<E(!new)>(c: Codec<E>, e: E)
    requires ValidCodec(c)
    ensures c.enc(e) != [] && c.enc(e)[|c.enc(e)| - 1] != NL
  {
    var text := c.enc(e);
    if text != [] { assert text[|text| - 1] in text; }
  }

  lemma UnterminatedAppend<E(!new)>(c: Codec<E>, b: Bytes, events: seq<E>, e: E)
    requires ValidCodec(c) && Clean(c, b, events)
    ensures Recover(c, b + c.enc(e)) == Some((events + [e], b + Record(c, e)))
  {
    hide Read, ValidCodec, Clean;
    var text := c.enc(e);
    EncodedEnd(c, e);
    ReadRecord(c, e);
    ReadAfterClean(c, b, events, text);
    assert (b + text)[..|b + text|] == b + text && b + text + [NL] == b + Record(c, e);
  }

  lemma {:induction false} BlankLines(b: Bytes)
    ensures Blank(b) <==> forall i :: 0 <= i < |Lines(b)| ==> Blank(Lines(b)[i])
  {
    if b != [] {
      var n := LineLength(b);
      BlankLines(b[n..]);
      assert b == b[..n] + b[n..];
      var ls := Lines(b);
      assert ls[0] == b[..n] && ls[1..] == Lines(b[n..]);
      assert forall i :: 0 < i < |ls| ==> ls[i] == Lines(b[n..])[i - 1];
      assert forall i :: 0 <= i < |Lines(b[n..])| ==> ls[i + 1] == Lines(b[n..])[i];
    }
  }

  ghost predicate TornThenMore<E(!new)>(c: Codec<E>, ls: seq<Bytes>, i: int, j: int) {
    0 <= i < j < |ls| && !Blank(ls[i]) && c.parse(ls[i]) == None && !Blank(ls[j])
  }

  // A log is refused exactly when some line that does not parse has a nonblank line after it.
  lemma {:induction false} CorruptExactly<E(!new)>(c: Codec<E>, b: Bytes)
    ensures Recover(c, b) == None <==> exists i, j :: TornThenMore(c, Lines(b), i, j)
  {
    if b == [] {
      assert Lines(b) == [];
    } else {
      hide *;
      var n := LineLength(b);
      LinesStep(b);
      CorruptExactly(c, b[n..]);
      BlankLines(b[n..]);
      CorruptStep(c, b[..n], Lines(b[n..]));
      CorruptRead(c, b);
    }
  }

  lemma LinesStep(b: Bytes)
    requires b != []
    ensures Lines(b) == [b[..LineLength(b)]] + Lines(b[LineLength(b)..])
  {}

  lemma CorruptRead<E(!new)>(c: Codec<E>, b: Bytes)
    requires b != []
    ensures var n := LineLength(b);
      Recover(c, b) == None <==>
        Recover(c, b[n..]) == None || (!Blank(b[..n]) && c.parse(b[..n]) == None && !Blank(b[n..]))
  {
    var n := LineLength(b);
    var rest := b[n..];
    if Blank(rest) {
      BlankReads(c, rest);
    }
  }

  lemma {:induction false} BlankReads<E(!new)>(c: Codec<E>, b: Bytes)
    requires Blank(b)
    ensures Read(c, b).Some?
  {
    if b != [] {
      BlankReads(c, b[LineLength(b)..]);
    }
  }

  // A line in front of some lines makes a corrupt log if they are corrupt, or if it does not parse
  // and they are not all blank.
  lemma CorruptStep<E(!new)>(c: Codec<E>, line: Bytes, tail: seq<Bytes>)
    ensures (exists i, j :: TornThenMore(c, [line] + tail, i, j)) <==>
      || (exists i, j :: TornThenMore(c, tail, i, j))
      || (!Blank(line) && c.parse(line) == None && exists j :: 0 <= j < |tail| && !Blank(tail[j]))
  {
    hide Blank;
    var ls := [line] + tail;
    if i, j :| TornThenMore(c, tail, i, j) {
      assert TornThenMore(c, ls, i + 1, j + 1);
    }
    if !Blank(line) && c.parse(line) == None {
      if j :| 0 <= j < |tail| && !Blank(tail[j]) {
        assert TornThenMore(c, ls, 0, j + 1);
      }
    }
    if i, j :| TornThenMore(c, ls, i, j) {
      if i > 0 {
        assert TornThenMore(c, tail, i - 1, j - 1);
      } else {
        assert !Blank(tail[j - 1]);
      }
    }
  }

  // The life of a log file: every act first reads (and so repairs) it, then writes; a crash may cut
  // the repair short after its truncation or an append short after any number of bytes.
  datatype Act<E> = Reading | CutRepair | Appending(event: E, written: nat) | Replacing(events: seq<E>)

  function FileAfter<E(!new)>(c: Codec<E>, acts: seq<Act<E>>): Bytes {
    if acts == [] then []
    else
      var b := FileAfter(c, acts[..|acts| - 1]);
      match Recover(c, b)
      case None => b
      case Some((_, file)) =>
        match acts[|acts| - 1]
        case Reading => file
        case CutRepair => b[..Read(c, b).value.valid]
        case Appending(e, written) =>
          file + (if written < |Record(c, e)| then Record(c, e)[..written] else Record(c, e))
        case Replacing(events) => Encode(c, events)
  }

  // What the log should hold: an append counts once its whole object has been written.
  function Survivors<E(!new)>(c: Codec<E>, acts: seq<Act<E>>): seq<E> {
    if acts == [] then []
    else
      var before := Survivors(c, acts[..|acts| - 1]);
      match acts[|acts| - 1]
      case Appending(e, written) => if written < |c.enc(e)| then before else before + [e]
      case Replacing(events) => events
      case _ => before
  }

  // Through any life with any crashes, the next reading succeeds and returns exactly the survivors.
  lemma {:induction false} LogSurvivesCrashes<E(!new)>(c: Codec<E>, acts: seq<Act<E>>)
    requires ValidCodec(c)
    ensures var r := Recover(c, FileAfter(c, acts)); r.Some? && r.value.0 == Survivors(c, acts)
  {
    if acts != [] {
      var n := |acts| - 1;
      LogSurvivesCrashes(c, acts[..n]);
      var b := FileAfter(c, acts[..n]);
      RecoveryRepairs(c, b);
      var (events, file) := Recover(c, b).value;
      match acts[n] {
        case Reading =>
        case CutRepair => RecoverySurvivesCrash(c, b);
        case Appending(e, written) =>
          var m := if written < |Record(c, e)| then written else |Record(c, e)|;
          assert Record(c, e)[..|Record(c, e)|] == Record(c, e);
          AppendIsCrashAtomic(c, file, events, e, m);
        case Replacing(es) =>
          CleanEncode(c, es);
          assert Encode(c, es)[..|Encode(c, es)|] == Encode(c, es);
      }
    }
  }

  // A codec of the assumed kind exists: a number as a braced run of ones.
  function Ones(n: nat): Bytes {
    if n == 0 then [] else Ones(n - 1) + [49]
  }

  lemma {:induction false} OnesAre(n: nat)
    ensures |Ones(n)| == n && forall i :: 0 <= i < n ==> Ones(n)[i] == 49
  {
    if n > 0 {
      OnesAre(n - 1);
    }
  }

  function Braced(n: nat): Bytes {
    [123] + Ones(n) + [125]
  }

  function Chomp(l: Bytes): Bytes {
    if l != [] && l[|l| - 1] == NL then l[..|l| - 1] else l
  }

  function ParseBraced(l: Bytes): Option<nat> {
    var t := Chomp(l);
    if |t| >= 2 && t == Braced(|t| - 2) then Some(|t| - 2) else None
  }

  lemma BracedIsWhole(n: nat)
    ensures var b := Braced(n);
      b != [] && NL !in b && !Blank(b) && ParseBraced(b) == Some(n)
  {
    OnesAre(n);
    assert !IsSpace(Braced(n)[0]);
    assert Chomp(Braced(n)) == Braced(n);
  }

  lemma BracedPrefix(n: nat, m: nat)
    requires 0 < m < |Braced(n)|
    ensures ParseBraced(Braced(n)[..m]) == None && !Blank(Braced(n)[..m])
  {
    OnesAre(n);
    var l := Braced(n)[..m];
    assert !IsSpace(l[0]) && l[m - 1] != 125 && Chomp(l) == l;
    if |l| >= 2 {
      OnesAre(|l| - 2);
      assert Braced(|l| - 2)[m - 1] == 125;
    }
  }

  lemma CodecExists() returns (c: Codec<nat>)
    ensures ValidCodec(c)
  {
    c := Codec(Braced, ParseBraced);
    forall n: nat
      ensures c.enc(n) != [] && NL !in c.enc(n) && !Blank(c.enc(n)) && c.parse(c.enc(n)) == Some(n)
    {
      BracedIsWhole(n);
    }
    forall n: nat, m: nat | 0 < m < |c.enc(n)|
      ensures c.parse(c.enc(n)[..m]) == None && !Blank(c.enc(n)[..m])
    {
      BracedPrefix(n, m);
    }
    forall l: Bytes | NL !in l ensures c.parse(l + [NL]) == c.parse(l) {
      assert Chomp(l + [NL]) == l && Chomp(l) == l;
    }
  }

  // And from numbers to any records that numbers can stand for.
  lemma CodecCarriesOver<E(!new)>(c: Codec<nat>, to: E -> nat, from: nat -> Option<E>)
    requires ValidCodec(c) && forall e :: from(to(e)) == Some(e)
    ensures ValidCodec(Codec(e => c.enc(to(e)),
      (b: Bytes) => if c.parse(b).None? then None else from(c.parse(b).value)))
  {
    var d := Codec((e: E) => c.enc(to(e)), (b: Bytes) => if c.parse(b).None? then None else from(c.parse(b).value));
    forall e ensures d.enc(e) != [] && NL !in d.enc(e) && !Blank(d.enc(e)) && d.parse(d.enc(e)) == Some(e) {
      assert d.enc(e) == c.enc(to(e));
    }
    forall e, n | 0 < n < |d.enc(e)| ensures d.parse(d.enc(e)[..n]) == None && !Blank(d.enc(e)[..n]) {
      assert d.enc(e) == c.enc(to(e));
    }
    forall l: Bytes | NL !in l ensures d.parse(l + [NL]) == d.parse(l) {
      assert c.parse(l + [NL]) == c.parse(l);
    }
  }

  // What the pass over the first `offset` bytes knows of the reading of the whole file.
  ghost predicate Scanning<E(!new)>(
    c: Codec<E>, bytes: Bytes, events: seq<E>, offset: nat, valid: nat, torn: bool)
    requires offset <= |bytes|
  {
    && valid <= offset
    && (if torn then Read(c, bytes) == if Blank(bytes[offset..]) then Some(Found(events, valid, true)) else None
        else valid == offset && Read(c, bytes) == Shift(events, offset, Read(c, bytes[offset..])))
  }

  lemma ScanStart<E(!new)>(c: Codec<E>, bytes: Bytes)
    ensures Scanning(c, bytes, [], 0, 0, false)
  {
    assert bytes[0..] == bytes;
    NoShift(Read(c, bytes));
  }

  lemma Slices(bytes: Bytes, offset: nat, first: Bytes, later: Bytes)
    requires offset <= |bytes| && bytes[offset..] == first + later
    ensures offset + |first| <= |bytes|
    ensures bytes[offset..offset + |first|] == first && bytes[offset + |first|..] == later
  {
    var rest := bytes[offset..];
    assert bytes[offset..offset + |first|] == rest[..|first|] && bytes[offset + |first|..] == rest[|first|..];
  }

  // One more line of the pass, in each of the loop's five cases.
  lemma ScanLine<E(!new)>(c: Codec<E>, bytes: Bytes, events: seq<E>, offset: nat, valid: nat, torn: bool)
    requires offset < |bytes| && Scanning(c, bytes, events, offset, valid, torn)
    ensures var n := LineLength(bytes[offset..]);
      var line := bytes[offset..offset + n];
      var next := offset + n;
      if Blank(line) then Scanning(c, bytes, events, next, if torn then valid else next, torn)
      else if torn then Read(c, bytes) == None
      else match c.parse(line)
        case Some(e) => Scanning(c, bytes, events + [e], next, next, false)
        case None => Scanning(c, bytes, events, next, valid, true)
  {
    hide Read, Blank, LineLength, IsLine;
    var first, later := FirstLine(bytes[offset..]);
    LineLengthIs(first, later);
    ReadStep(c, first, later);
    BlankSplit(first, later);
    var n := LineLength(bytes[offset..]);
    Slices(bytes, offset, first, later);
    if !torn {
      ShiftTwice(events, [], offset, n, Read(c, later));
      assert events + [] == events;
      if c.parse(first).Some? {
        ShiftTwice(events, [c.parse(first).value], offset, n, Read(c, later));
      }
    }
  }

  lemma ScanEnd<E(!new)>(c: Codec<E>, bytes: Bytes, events: seq<E>, valid: nat, torn: bool)
    requires Scanning(c, bytes, events, |bytes|, valid, torn)
    ensures valid <= |bytes|
    ensures Recover(c, bytes) == Some((events,
      var kept := if torn then bytes[..valid] else bytes;
      if valid > 0 && bytes[valid - 1] != NL then kept + [NL] else kept))
  {
    NothingRead(c);
    assert bytes[|bytes|..] == [] && bytes[..|bytes|] == bytes && events + [] == events;
    hide Read;
  }

  lemma CorruptScan<E(!new)>(c: Codec<E>, bytes: Bytes)
    requires Read(c, bytes) == None
    ensures Recover(c, bytes) == None
  {}

  class EventLog<E(!new)> {
    var file: Bytes
    const codec: Codec<E>

    constructor (codec: Codec<E>)
      ensures file == [] && this.codec == codec
    {
      file := [];
      this.codec := codec;
    }

    // events(): one pass over the lines, then the truncation of a torn tail and the missing newline.
    method Events() returns (r: Option<seq<E>>)
      modifies this
      ensures var s := Recover(codec, old(file));
        if s.None? then r == None && file == old(file) else r == Some(s.value.0) && file == s.value.1
    {
      hide *;
      var bytes := file;
      var events: seq<E> := [];
      var valid: nat, offset: nat := 0, 0;
      var torn := false;
      ScanStart(codec, bytes);
      while offset < |bytes|
        invariant offset <= |bytes| && Scanning(codec, bytes, events, offset, valid, torn)
        invariant file == old(file)
      {
        var n := LineLength(bytes[offset..]);
        var line := bytes[offset..offset + n];
        ScanLine(codec, bytes, events, offset, valid, torn);
        offset := offset + n;
        if Blank(line) {
          if !torn {
            valid := offset;
          }
        } else {
          if torn {
            CorruptScan(codec, bytes);
            return None;
          }
          match codec.parse(line) {
            case Some(e) =>
              events := events + [e];
              valid := offset;
            case None =>
              torn := true;
          }
        }
      }
      ScanEnd(codec, bytes, events, valid, torn);
      if torn {
        file := bytes[..valid];
      }
      if valid > 0 && bytes[valid - 1] != NL {
        file := file + [NL];
      }
      r := Some(events);
    }

    method Append(e: E)
      modifies this
      ensures file == old(file) + Record(codec, e)
    {
      file := file + codec.enc(e) + [NL];
    }

    method Replace(events: seq<E>)
      modifies this
      ensures file == Encode(codec, events)
    {
      var bytes: Bytes := [];
      for i := 0 to |events|
        invariant bytes == Encode(codec, events[..i])
      {
        assert events[..i + 1][..i] == events[..i];
        bytes := bytes + codec.enc(events[i]) + [NL];
      }
      assert events[..|events|] == events;
      file := bytes;
    }
  }

  lemma NoShift<E>(r: Option<Found<E>>)
    ensures Shift([], 0, r) == r
  {
    if r.Some? {
      assert [] + r.value.events == r.value.events;
    }
  }

  lemma BlankSplit(a: Bytes, b: Bytes)
    ensures Blank(a + b) <==> Blank(a) && Blank(b)
  {
    if Blank(a + b) {
      forall i | 0 <= i < |a| ensures IsSpace(a[i]) {
        assert (a + b)[i] == a[i];
      }
      forall i | 0 <= i < |b| ensures IsSpace(b[i]) {
        assert (a + b)[|a| + i] == b[i];
      }
    }
  }

  lemma ShiftTwice<E>(a: seq<E>, b: seq<E>, m: nat, n: nat, r: Option<Found<E>>)
    ensures Shift(a, m, Shift(b, n, r)) == Shift(a + b, m + n, r)
  {
    if r.Some? {
      assert a + (b + r.value.events) == (a + b) + r.value.events;
    }
  }
}
