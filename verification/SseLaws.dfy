/**
 How a stream of server-sent events is read (transport.rs), in plain bytes: field lines, their ends, what
 they collect, and which bytes are text.
 */
module SseLaws {
  import opened Wrappers
  import opened SseReaders

  // ---- text

  predicate Scalar(c: nat) {
    c < 0xD800 || 0xE000 <= c < 0x11_0000
  }

  // The UTF-8 form of a character (RFC 3629, section 3).
  function Encoded(c: nat): Bytes
    requires Scalar(c)
  {
    if c < 0x80 then [c]
    else if c < 0x800 then [0xC0 + c / 64, 0x80 + c % 64]
    else if c < 0x1_0000 then [0xE0 + c / 64 / 64, 0x80 + c / 64 % 64, 0x80 + c % 64]
    else [0xF0 + c / 64 / 64 / 64, 0x80 + c / 64 / 64 % 64, 0x80 + c / 64 % 64, 0x80 + c % 64]
  }

  lemma CharacterLaw(c: nat, rest: Bytes)
    requires Scalar(c)
    ensures CharLength(Encoded(c) + rest) == |Encoded(c)|
  {}

  lemma Base64(q: nat, r: nat)
    requires r < 64
    ensures (64 * q + r) / 64 == q && (64 * q + r) % 64 == r
  {}

  lemma TwoBytes(x: int, y: int)
    requires 194 <= x <= 223 && 128 <= y < 192
    ensures var c := 64 * (x - 0xC0) + (y - 0x80); 0x80 <= c < 0x800 && Encoded(c) == [x, y]
  {
    Base64(x - 0xC0, y - 0x80);
  }

  lemma ThreeBytes(x: int, y: int, z: int)
    requires 224 <= x <= 239 && 128 <= y < 192 && 128 <= z < 192 && (x == 224 ==> y >= 160) && (x == 237 ==> y < 160)
    ensures var c := 64 * (64 * (x - 0xE0) + (y - 0x80)) + (z - 0x80);
      0x800 <= c < 0x1_0000 && Scalar(c) && Encoded(c) == [x, y, z]
  {
    Base64(x - 0xE0, y - 0x80);
    Base64(64 * (x - 0xE0) + (y - 0x80), z - 0x80);
  }

  lemma FourBytes(x: int, y: int, z: int, w: int)
    requires 240 <= x <= 244 && 128 <= y < 192 && 128 <= z < 192 && 128 <= w < 192
    requires (x == 240 ==> y >= 144) && (x == 244 ==> y < 144)
    ensures var c := 64 * (64 * (64 * (x - 0xF0) + (y - 0x80)) + (z - 0x80)) + (w - 0x80);
      0x1_0000 <= c && Scalar(c) && Encoded(c) == [x, y, z, w]
  {
    var p := 64 * (x - 0xF0) + (y - 0x80);
    var q := 64 * p + (z - 0x80);
    Base64(x - 0xF0, y - 0x80);
    Base64(p, z - 0x80);
    Base64(q, w - 0x80);
  }

  // What is taken for a character is one.
  lemma OnlyCharacters(s: Bytes) returns (c: nat)
    requires CharLength(s) > 0
    ensures Scalar(c) && s[..CharLength(s)] == Encoded(c)
  {
    hide Encoded;
    var n := CharLength(s);
    var at := (i: nat) requires i < |s| => s[i] as int;
    if n == 1 {
      c := at(0);
      OneByte(c);
    } else if n == 2 {
      c := 64 * (at(0) - 0xC0) + (at(1) - 0x80);
      TwoBytes(at(0), at(1));
    } else if n == 3 {
      c := 64 * (64 * (at(0) - 0xE0) + (at(1) - 0x80)) + (at(2) - 0x80);
      ThreeBytes(at(0), at(1), at(2));
    } else {
      c := 64 * (64 * (64 * (at(0) - 0xF0) + (at(1) - 0x80)) + (at(2) - 0x80)) + (at(3) - 0x80);
      FourBytes(at(0), at(1), at(2), at(3));
    }
  }

  lemma OneByte(x: int)
    requires 0 <= x < 128
    ensures Encoded(x) == [x]
  {}

  // ---- lines

  // A text that fits on one line.
  predicate Plain(s: Bytes) {
    Utf8(s) && forall b <- s :: b != 10 && b != 13
  }

  lemma {:induction false} LineEnds(l: Bytes, b: byte, rest: Bytes)
    requires (forall x <- l :: x != 10 && x != 13) && b in {10, 13}
    ensures EndOf(l + [b] + rest) == |l|
  {
    var s := l + [b] + rest;
    if l != [] {
      assert s[1..] == l[1..] + [b] + rest && l[0] in l && forall x <- l[1..] :: x in l;
      LineEnds(l[1..], b, rest);
    }
  }

  lemma {:induction false} NeverEnds(l: Bytes)
    requires forall x <- l :: x != 10 && x != 13
    ensures EndOf(l) == |l|
  {
    if l != [] {
      assert l[0] in l && forall x <- l[1..] :: x in l;
      NeverEnds(l[1..]);
    }
  }

  lemma BatchIsLeft(s: Bytes)
    ensures Batch(s) == Left([], [], s, false)
  {}

  // What the line `l` does to a reader that starts on it.
  lemma LineIs(event: Bytes, data: Bytes, l: Bytes, rest: Bytes)
    requires Plain(l) && l != []
    ensures var (e, d) := Field(event, data, l);
      Left(event, data, l + [10] + rest, false) == Left(e, d, rest, false)
  {
    hide Lines, Interpret, Utf8, Field, FieldOf;
    var s := l + [10] + rest;
    LineEnds(l, 10, rest);
    TakeLine(event, data, s, false);
    assert s[..|l|] == l && s[|l| + 1..] == rest && s[|l|] == 10;
    hide Left;
    SameLeft(Field(event, data, l).0, Field(event, data, l).1, rest);
  }

  lemma SameLeft(event: Bytes, data: Bytes, rest: Bytes)
    ensures Left(event, data, rest, 10 == CR) == Left(event, data, rest, false)
  {}

  lemma BlankIs(event: Bytes, data: Bytes, rest: Bytes)
    ensures var later := Batch(rest);
      Left(event, data, [10] + rest, false) ==
        if data == [] then later else ([Message(event, data[..|data| - 1])] + later.0, later.1)
  {
    hide Lines, Interpret, Utf8;
    var s := [10] + rest;
    assert s == [] + [10] + rest && s[1..] == rest;
    LineEnds([], 10, rest);
    TakeEmptyLine(event, data, s, false);
    BatchIsLeft(rest);
  }

  lemma {:induction false} ColonIs(name: Bytes, value: Bytes)
    requires 58 !in name
    ensures ColonAt(name + [58] + value) == |name|
  {
    if name != [] {
      assert (name + [58] + value)[1..] == name[1..] + [58] + value;
      ColonIs(name[1..], value);
    }
  }

  lemma {:induction false} NoColon(l: Bytes)
    requires 58 !in l
    ensures ColonAt(l) == |l|
  {
    if l != [] {
      NoColon(l[1..]);
    }
  }

  // A field line: a name, a colon, at most one space, and the value.
  function FieldLine(name: Bytes, space: bool, value: Bytes): Bytes {
    name + [58] + (if space then [32] else []) + value
  }

  lemma FieldLineIs(name: Bytes, space: bool, value: Bytes)
    requires 58 !in name && (!space ==> value == [] || value[0] != 32)
    ensures FieldOf(FieldLine(name, space, value)) == (name, value)
  {
    var after := (if space then [32] else []) + value;
    var l := name + [58] + after;
    assert FieldLine(name, space, value) == l;
    ColonIs(name, after);
    assert l[..|name|] == name && l[|name| + 1..] == after;
    if space {
      assert l[|name| + 1] == 32 && l[|name| + 2..] == value;
    } else if value != [] {
      assert l[|name| + 1] == value[0];
    }
  }

  lemma PlainLine(name: Bytes, space: bool, value: Bytes)
    requires Plain(name) && Plain(value)
    ensures Plain(FieldLine(name, space, value))
  {
    hide Utf8;
    Ascii(58);
    Ascii(32);
    assert Utf8([]) by { NoText(); }
    Utf8Joins(name, [58]);
    Utf8Joins(name + [58], if space then [32] else []);
    Utf8Joins(name + [58] + (if space then [32] else []), value);
  }

  lemma Ascii(b: byte)
    requires b < 128
    ensures Utf8([b])
  {
    assert CharLength([b]) == 1 && [b][1..] == [];
  }

  lemma NamesPlain()
    ensures Plain([100, 97, 116, 97]) && Plain([101, 118, 101, 110, 116])
    ensures 58 !in [100, 97, 116, 97] && 58 !in [101, 118, 101, 110, 116]
  {
    hide Utf8;
    Ascii(100); Ascii(97); Ascii(116); Ascii(101); Ascii(118); Ascii(110);
    assert [100, 97, 116, 97] == [100] + [97] + [116] + [97];
    Utf8Joins([100], [97]);
    Utf8Joins([100] + [97], [116]);
    Utf8Joins([100] + [97] + [116], [97]);
    assert [101, 118, 101, 110, 116] == [101] + [118] + [101] + [110] + [116];
    Utf8Joins([101], [118]);
    Utf8Joins([101] + [118], [101]);
    Utf8Joins([101] + [118] + [101], [110]);
    Utf8Joins([101] + [118] + [101] + [110], [116]);
  }

  // ---- what a stream says

  // A line may end in CR, LF or CRLF alike; a CR ends one by itself only where no LF follows.
  lemma LineEndLaw(event: Bytes, data: Bytes, l: Bytes, end: Bytes, rest: Bytes)
    requires forall b <- l :: b != 10 && b != 13
    requires end in {[10], [13], [13, 10]} && (end == [13] ==> rest == [] || rest[0] != 10)
    ensures Left(event, data, l + end + rest, false) == Left(event, data, l + [10] + rest, false)
  {
    hide Lines, Interpret, EndOf;
    var s, t := l + end + rest, l + [10] + rest;
    var after := if end == [13, 10] then [10] + rest else rest;
    assert s == l + [end[0]] + after;
    LineEnds(l, end[0], after);
    LineEnds(l, 10, rest);
    LinesUnfold(s);
    LinesUnfold(t);
    assert s[..|l|] == l == t[..|l|] && s[|l|] == end[0] && t[|l|] == 10;
    assert s[|l| + 1..] == after && t[|l| + 1..] == rest;
    assert Lines(s) == Lines(t) by {
      assert Pending(after, end[0] == CR) == rest == Pending(rest, false);
    }
    hide Pending;
    NotPending(event, data, s);
    NotPending(event, data, t);
  }

  lemma NotPending(event: Bytes, data: Bytes, s: Bytes)
    ensures Left(event, data, s, false) == Interpret(event, data, Lines(s))
  {}

  // The bytes of "data:" and "event:", each with the space that may follow.
  function DataLine(space: bool, v: Bytes): Bytes {
    [100, 97, 116, 97, 58] + (if space then [32] else []) + v + [10]
  }

  function EventLine(space: bool, n: Bytes): Bytes {
    [101, 118, 101, 110, 116, 58] + (if space then [32] else []) + n + [10]
  }

  lemma DataLineLaw(event: Bytes, data: Bytes, space: bool, v: Bytes, rest: Bytes)
    requires Plain(v) && (!space ==> v == [] || v[0] != 32)
    ensures Left(event, data, DataLine(space, v) + rest, false) == Left(event, data + v + [10], rest, false)
  {
    hide Plain, Left, FieldOf;
    NamesPlain();
    var name := [100, 97, 116, 97];
    FieldLineIs(name, space, v);
    PlainLine(name, space, v);
    assert DataLine(space, v) == FieldLine(name, space, v) + [10];
    LineIs(event, data, FieldLine(name, space, v), rest);
  }

  lemma EventLineLaw(event: Bytes, data: Bytes, space: bool, n: Bytes, rest: Bytes)
    requires Plain(n) && (!space ==> n == [] || n[0] != 32)
    ensures Left(event, data, EventLine(space, n) + rest, false) == Left(n, data, rest, false)
  {
    hide Plain, Left, FieldOf;
    NamesPlain();
    var name := [101, 118, 101, 110, 116];
    FieldLineIs(name, space, n);
    PlainLine(name, space, n);
    assert EventLine(space, n) == FieldLine(name, space, n) + [10];
    LineIs(event, data, FieldLine(name, space, n), rest);
  }

  // A field of any other name, the empty one of a comment included, changes nothing.
  lemma OtherFieldLaw(event: Bytes, data: Bytes, name: Bytes, after: Bytes, rest: Bytes)
    requires Plain(name) && 58 !in name && name !in {[100, 97, 116, 97], [101, 118, 101, 110, 116]} && Plain(after)
    ensures Left(event, data, name + [58] + after + [10] + rest, false) == Left(event, data, rest, false)
    ensures name != [] ==> Left(event, data, name + [10] + rest, false) == Left(event, data, rest, false)
  {
    hide Plain, Left;
    var l := name + [58] + after;
    ColonIs(name, after);
    assert l[..|name|] == name;
    assert FieldLine(name, false, after) == l;
    PlainLine(name, false, after);
    LineIs(event, data, l, rest);
    NoColon(name);
    if name != [] { LineIs(event, data, name, rest); }
  }

  // A name without a colon is a field with an empty value.
  lemma BareNameLaw(event: Bytes, data: Bytes, rest: Bytes)
    ensures Left(event, data, [100, 97, 116, 97, 10] + rest, false) == Left(event, data + [10], rest, false)
    ensures Left(event, data, [101, 118, 101, 110, 116, 10] + rest, false) == Left([], data, rest, false)
  {
    hide Plain, Left;
    NamesPlain();
    NoColon([100, 97, 116, 97]);
    NoColon([101, 118, 101, 110, 116]);
    LineIs(event, data, [100, 97, 116, 97], rest);
    LineIs(event, data, [101, 118, 101, 110, 116], rest);
    assert [100, 97, 116, 97, 10] + rest == [100, 97, 116, 97] + [10] + rest;
    assert [101, 118, 101, 110, 116, 10] + rest == [101, 118, 101, 110, 116] + [10] + rest;
    assert data + [] + [10] == data + [10];
  }

  function DataLines(space: bool, vs: seq<Bytes>): Bytes {
    if vs == [] then [] else DataLine(space, vs[0]) + DataLines(space, vs[1..])
  }

  function Joined(vs: seq<Bytes>): Bytes
    requires vs != []
  {
    if |vs| == 1 then vs[0] else vs[0] + [10] + Joined(vs[1..])
  }

  lemma {:induction false} DataLinesLaw(event: Bytes, data: Bytes, space: bool, vs: seq<Bytes>, rest: Bytes)
    requires vs != [] && forall v <- vs :: Plain(v) && (!space ==> v == [] || v[0] != 32)
    ensures Left(event, data, DataLines(space, vs) + rest, false) ==
      Left(event, data + Joined(vs) + [10], rest, false)
    decreases |vs|
  {
    hide Plain, Left, DataLine;
    assert vs[0] in vs && forall v <- vs[1..] :: v in vs;
    var more := DataLines(space, vs[1..]);
    assert DataLines(space, vs) + rest == DataLine(space, vs[0]) + (more + rest);
    DataLineLaw(event, data, space, vs[0], more + rest);
    if |vs| == 1 {
      assert more + rest == rest;
    } else {
      DataLinesLaw(event, data + vs[0] + [10], space, vs[1..], rest);
      assert data + vs[0] + [10] + Joined(vs[1..]) + [10] == data + Joined(vs) + [10];
    }
  }

  // A message is an event line, if any, and one or more data lines, up to an empty line: its data are
  // their values, joined by line feeds, and the rest of the stream is read on its own.
  lemma MessageLaw(space: bool, name: Option<Bytes>, vs: seq<Bytes>, rest: Bytes)
    requires vs != [] && forall v <- vs :: Plain(v) && (!space ==> v == [] || v[0] != 32)
    requires name.Some? ==> Plain(name.value) && (!space ==> name.value == [] || name.value[0] != 32)
    ensures var head := if name.Some? then EventLine(space, name.value) else [];
      Batch(head + DataLines(space, vs) + [10] + rest) ==
        ([Message(if name.Some? then name.value else [], Joined(vs))] + Batch(rest).0, Batch(rest).1)
  {
    hide Plain, Left, DataLines, EventLine, Batch, Joined;
    var head := if name.Some? then EventLine(space, name.value) else [];
    var event := if name.Some? then name.value else [];
    var tail := DataLines(space, vs) + ([10] + rest);
    assert head + DataLines(space, vs) + [10] + rest == head + tail && [] + tail == tail;
    BatchIsLeft(head + tail);
    if name.Some? { EventLineLaw([], [], space, name.value, tail); }
    DataLinesLaw(event, [], space, vs, [10] + rest);
    var data := [] + Joined(vs) + [10];
    BlankIs(event, data, rest);
    assert data[..|data| - 1] == Joined(vs);
  }

  // Without data an empty line reports nothing and forgets the event name.
  lemma NoMessageLaw(event: Bytes, rest: Bytes)
    ensures Left(event, [], [10] + rest, false) == Batch(rest)
  {
    BlankIs(event, [], rest);
  }

  // A line that has not ended is not read, and one that is no text ends the reading.
  lemma EndsLaw(l: Bytes, rest: Bytes)
    requires forall b <- l :: b != 10 && b != 13
    ensures Batch(l) == ([], false)
    ensures !Utf8(l) ==> Batch(l + [10] + rest) == ([], true)
  {
    hide Lines, Utf8, Interpret;
    NeverEnds(l);
    BatchIsLeft(l);
    Unended([], [], l, false);
    LineEnds(l, 10, rest);
    var s := l + [10] + rest;
    assert s[..|l|] == l;
    BatchIsLeft(s);
    TakeLine([], [], s, false);
  }
}
