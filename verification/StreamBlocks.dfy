/** Anthropic streams (client.rs): content blocks by index, their fragments and their tool input. */
module StreamBlocks {
  import opened Wrappers
  import opened Jsons
  import opened StreamJournals

  // A stream so far: the message, each block as it started, and the stopped blocks.
  datatype Message = Message(body: Json, starts: map<nat, Json>, stopped: set<nat>, journal: Journal)

  const FIELDS := {"text", "thinking", "signature", "content", "encrypted_content", "input"}

  // The fragments a block delta stands for, none when it is malformed or of the wrong kind.
  function BlockFragments(i: nat, block: Json, delta: Json): Option<seq<Sent>> {
    var kind := At(delta, "type");
    if kind == Str("text_delta") then
      var text := At(delta, "text");
      if text.Str? then Some([Sent(Block(i, "text"), text.text, Some(TextDelta(text.text)))]) else None
    else if kind == Str("thinking_delta") then
      var text := At(delta, "thinking");
      if text.Str? then Some([Sent(Block(i, "thinking"), text.text, Some(ReasoningDelta(text.text)))]) else None
    else if kind == Str("signature_delta") then
      var text := At(delta, "signature");
      if text.Str? then Some([Sent(Block(i, "signature"), text.text, None)]) else None
    else if kind == Str("compaction_delta") then
      var content := Sent(Block(i, "content"), StrOr(At(delta, "content")), None);
      var encrypted := StrOr(At(delta, "encrypted_content"));
      if At(block, "type") != Str("compaction") then None
      else if encrypted == "" then Some([content])
      else Some([content, Sent(Block(i, "encrypted_content"), encrypted, None)])
    else if kind == Str("compaction_encrypted_content") then
      var text := At(delta, "encrypted_content");
      if text.Str? then Some([Sent(Block(i, "encrypted_content"), text.text, None)]) else None
    else if kind == Str("input_json_delta") then
      var arguments, id := At(delta, "partial_json"), At(block, "id");
      if arguments.Str? && id.Str?
      then Some([Sent(Block(i, "input"), arguments.text, Some(ToolArgumentsDelta(id.text, arguments.text)))])
      else None
    else None
  }

  function LogAll(j: Journal, s: seq<Sent>): Journal {
    j.(sent := j.sent + s)
  }

  // The fragments of one field of a block.
  function FieldPieces(m: Message, i: nat, field: string): seq<string> {
    Pieces(m.journal.sent, Block(i, field))
  }

  predicate HasInput(m: Message, i: nat) {
    FieldPieces(m, i, "input") != []
  }

  function Input(m: Message, i: nat, codec: Codec): Option<Json> {
    codec.parse(Join(FieldPieces(m, i, "input")))
  }

  // The usage, stop reason and end of turn of a message_delta replace earlier ones.
  function DeltaBody(body: Json, event: Json): Json {
    var usage := At(event, "usage");
    var body := if usage.Object? && usage.fields != map[] then With(body, "usage", Merged(At(body, "usage"), usage))
      else body;
    var body := With(body, "stop_reason", At(At(event, "delta"), "stop_reason"));
    Copied(body, At(event, "delta"), ["end_turn"])
  }

  predicate Startable(message: Json, body: Json) {
    message.Object? && At(message, "id").Str? && (Has(message, "usage") ==> At(message, "usage").Object?)
      && !Has(body, "id")
  }

  // One event other than message_stop; none is a protocol error.
  function BlockStep(m: Message, event: Json, codec: Codec): Option<Message> {
    var kind, index := At(event, "type"), U64(At(event, "index"));
    if kind == Str("message_start") then
      var message := At(event, "message");
      if Startable(message, m.body) then Some(m.(body := message)) else None
    else if kind == Str("content_block_start") then
      var block := At(event, "content_block");
      if block.Object? && Has(m.body, "id") && index.Some? && index.value !in m.starts
      then Some(m.(starts := m.starts[index.value := block]))
      else None
    else if kind == Str("content_block_delta") then
      if index.None? || index.value in m.stopped || index.value !in m.starts then None
      else
        match BlockFragments(index.value, m.starts[index.value], At(event, "delta"))
        case None => None
        case Some(s) => Some(m.(journal := LogAll(m.journal, s)))
    else if kind == Str("content_block_stop") then
      if index.None? || index.value in m.stopped || index.value !in m.starts then None
      else if HasInput(m, index.value) && Input(m, index.value, codec).None? then None
      else Some(m.(stopped := m.stopped + {index.value}))
    else if kind == Str("message_delta") then Some(m.(body := DeltaBody(m.body, event)))
    else if kind == Str("ping") then Some(m)
    else None
  }

  // The events of a stream, from its beginning.
  function MessageFold(events: seq<Json>, codec: Codec): Option<Message> {
    if events == [] then Some(Message(EMPTY, map[], {}, NEW))
    else
      match MessageFold(events[..|events| - 1], codec)
      case None => None
      case Some(before) => BlockStep(before, events[|events| - 1], codec)
  }

  // A message may end once it has an ID and a stop reason and no tool input is unfinished.
  predicate Finishable(m: Message) {
    && At(m.body, "id").Str? && At(m.body, "stop_reason").Str?
    && forall i :: i in m.starts && i !in m.stopped ==> !HasInput(m, i)
  }

  // A field of a block: its start value with all fragments appended; the encrypted content is the
  // latest one, and the input of a stopped block is parsed from all its fragments.
  function FieldFrom(start: Json, pieces: seq<string>, field: string, stopped: bool, codec: Codec): Json {
    if pieces == [] then start
    else if field == "input" then
      (var input := codec.parse(Join(pieces)); if stopped && input.Some? then input.value else start)
    else if field == "encrypted_content" then Str(pieces[|pieces| - 1])
    else Str(StrOr(start) + Join(pieces))
  }

  function FieldOf(m: Message, i: nat, field: string, codec: Codec): Json
    requires i in m.starts
  {
    FieldFrom(At(m.starts[i], field), FieldPieces(m, i, field), field, i in m.stopped, codec)
  }

  ghost predicate BlockOwners(m: Message) {
    && AllAnnounced(m.journal.sent)
    && forall s <- m.journal.sent :: s.owner.Block? && s.owner.index in m.starts && s.owner.field in FIELDS
  }

  ghost predicate IsBlock(m: Message, i: nat, block: Json, codec: Codec)
    requires i in m.starts
  {
    block.Object? && forall f: string :: At(block, f) == FieldOf(m, i, f, codec)
  }

  // The accumulated blocks and argument buffers are what the stream so far describes.
  ghost predicate BlocksMatch(m: Message, tools: map<nat, Json>, buffers: map<nat, string>, codec: Codec) {
    && BlockOwners(m)
    && m.stopped <= m.starts.Keys == tools.Keys
    && (forall i :: i in tools ==> IsBlock(m, i, tools[i], codec))
    && (forall i: nat :: i in buffers <==> i in m.starts && i !in m.stopped && HasInput(m, i))
    && (forall i :: i in buffers ==> buffers[i] == Join(FieldPieces(m, i, "input")))
    && (forall i :: i in m.stopped && HasInput(m, i) ==> Input(m, i, codec).Some?)
  }

  lemma NoBlocks(body: Json, codec: Codec)
    ensures BlocksMatch(Message(body, map[], {}, NEW), map[], map[], codec)
  {}

  lemma OwnPieces(m: Message, i: nat, f: string)
    requires BlockOwners(m) && (i !in m.starts || f !in FIELDS)
    ensures FieldPieces(m, i, f) == []
  {
    NoPieces(m.journal.sent, Block(i, f));
  }

  lemma BodyKeeps(m: Message, body: Json, tools: map<nat, Json>, buffers: map<nat, string>, codec: Codec)
    requires BlocksMatch(m, tools, buffers, codec)
    ensures BlocksMatch(m.(body := body), tools, buffers, codec)
  {
    hide Pieces, Join, FieldFrom, With;
    var n := m.(body := body);
    forall k | k in tools ensures IsBlock(n, k, tools[k], codec) {
      SameBlock(m, n, k, tools[k], codec);
    }
  }

  // A block of which nothing changed.
  lemma SameBlock(m: Message, n: Message, k: nat, block: Json, codec: Codec)
    requires k in m.starts && k in n.starts && m.starts[k] == n.starts[k] && (k in m.stopped <==> k in n.stopped)
    requires forall f: string :: FieldPieces(m, k, f) == FieldPieces(n, k, f)
    requires IsBlock(m, k, block, codec)
    ensures IsBlock(n, k, block, codec)
  {
    hide FieldFrom, FieldPieces;
    forall f: string ensures At(block, f) == FieldOf(n, k, f, codec) {
      assert At(block, f) == FieldOf(m, k, f, codec);
    }
  }

  lemma StartKeeps(m: Message, i: nat, block: Json, tools: map<nat, Json>, buffers: map<nat, string>, codec: Codec)
    requires BlocksMatch(m, tools, buffers, codec) && i !in m.starts && block.Object?
    ensures BlocksMatch(m.(starts := m.starts[i := block]), tools[i := block], buffers, codec)
  {
    hide Pieces, Join, FieldFrom, IsBlock;
    var n := m.(starts := m.starts[i := block]);
    StartedBlock(m, i, block, codec);
    forall k | k in tools ensures IsBlock(n, k, tools[k], codec) {
      SameBlock(m, n, k, tools[k], codec);
    }
  }

  lemma StartedBlock(m: Message, i: nat, block: Json, codec: Codec)
    requires BlockOwners(m) && i !in m.starts && block.Object?
    ensures var n := m.(starts := m.starts[i := block]);
      BlockOwners(n) && IsBlock(n, i, block, codec) && !HasInput(n, i)
  {
    hide Pieces, Announced;
    var n := m.(starts := m.starts[i := block]);
    forall f: string ensures FieldPieces(n, i, f) == [] { OwnPieces(m, i, f); }
  }

  // A fragment changes its own field of its own block.
  lemma FragmentKeeps(m: Message, s: Sent, block: Json, tools: map<nat, Json>, buffers: map<nat, string>, codec: Codec)
    requires BlocksMatch(m, tools, buffers, codec) && Announced(s)
    requires s.owner.Block? && s.owner.field in FIELDS && s.owner.index in m.starts && s.owner.index !in m.stopped
    requires var (i, f) := (s.owner.index, s.owner.field);
      block == if f == "input" then tools[i]
        else if f == "encrypted_content" then With(tools[i], f, Str(s.delta))
        else With(tools[i], f, Str(StrOr(At(tools[i], f)) + s.delta))
    ensures var (i, f) := (s.owner.index, s.owner.field);
      BlocksMatch(m.(journal := Log(m.journal, s)), tools[i := block],
        if f == "input" then buffers[i := (if i in buffers then buffers[i] else "") + s.delta] else buffers, codec)
  {
    hide Pieces, Join, Announced, FieldFrom, FieldPieces, BlockOwners, With, IsBlock, Log;
    var i := s.owner.index;
    var n := m.(journal := Log(m.journal, s));
    FragmentOwners(m, s);
    FragmentBlock(m, s, tools[i], block, codec);
    forall k, f: string ensures FieldPieces(n, k, f) ==
      if s.owner == Block(k, f) then FieldPieces(m, k, f) + [s.delta] else FieldPieces(m, k, f)
    {
      FragmentPieces(m, s, k, f);
    }
    forall k | k in tools && k != i ensures IsBlock(n, k, tools[k], codec) {
      SameBlock(m, n, k, tools[k], codec);
    }
    JoinNone();
    JoinMore(FieldPieces(m, i, "input"), s.delta);
  }

  lemma JoinNone()
    ensures Join([]) == ""
  {}

  lemma FragmentPieces(m: Message, s: Sent, k: nat, f: string)
    ensures FieldPieces(m.(journal := Log(m.journal, s)), k, f) ==
      if s.owner == Block(k, f) then FieldPieces(m, k, f) + [s.delta] else FieldPieces(m, k, f)
  {
    PiecesLog(m.journal.sent, s, Block(k, f));
  }

  lemma FragmentBlock(m: Message, s: Sent, was: Json, block: Json, codec: Codec)
    requires s.owner.Block? && s.owner.index in m.starts && s.owner.index !in m.stopped
    requires IsBlock(m, s.owner.index, was, codec)
    requires var f := s.owner.field;
      block == if f == "input" then was
        else if f == "encrypted_content" then With(was, f, Str(s.delta))
        else With(was, f, Str(StrOr(At(was, f)) + s.delta))
    ensures IsBlock(m.(journal := Log(m.journal, s)), s.owner.index, block, codec)
  {
    hide FieldPieces, With, Log, FieldFrom;
    var i := s.owner.index;
    var n := m.(journal := Log(m.journal, s));
    forall f: string ensures At(block, f) == FieldOf(n, i, f, codec) {
      assert At(was, f) == FieldOf(m, i, f, codec);
      FragmentPieces(m, s, i, f);
      FieldFromMore(At(m.starts[i], f), FieldPieces(m, i, f), f, s.delta, codec);
    }
  }

  // What one more fragment makes of a field of a running block.
  lemma FieldFromMore(start: Json, pieces: seq<string>, field: string, delta: string, codec: Codec)
    ensures FieldFrom(start, pieces + [delta], field, false, codec) ==
      if field == "input" then start
      else if field == "encrypted_content" then Str(delta)
      else Str(StrOr(FieldFrom(start, pieces, field, false, codec)) + delta)
    ensures field == "input" ==> FieldFrom(start, pieces, field, false, codec) == start
  {
    hide Join;
    JoinMore(pieces, delta);
    var all := pieces + [delta];
    assert all != [] && all[|all| - 1] == delta;
    if pieces == [] {
      JoinNone();
      assert StrOr(start) + ("" + delta) == StrOr(start) + delta;
    } else {
      assert StrOr(start) + (Join(pieces) + delta) == StrOr(start) + Join(pieces) + delta;
    }
  }

  lemma FragmentOwners(m: Message, s: Sent)
    requires BlockOwners(m) && Announced(s) && s.owner.Block? && s.owner.field in FIELDS && s.owner.index in m.starts
    ensures BlockOwners(m.(journal := Log(m.journal, s)))
  {}

  lemma StopKeeps(m: Message, i: nat, block: Json, tools: map<nat, Json>, buffers: map<nat, string>, codec: Codec)
    requires BlocksMatch(m, tools, buffers, codec) && i in m.starts && i !in m.stopped
    requires HasInput(m, i) ==> Input(m, i, codec).Some?
    requires block == if HasInput(m, i) then With(tools[i], "input", Input(m, i, codec).value) else tools[i]
    ensures BlocksMatch(m.(stopped := m.stopped + {i}), tools[i := block], buffers - {i}, codec)
  {
    hide Pieces, Join, FieldFrom, FieldPieces, IsBlock, With, BlockOwners;
    var n := m.(stopped := m.stopped + {i});
    StoppedBlock(m, i, tools[i], block, codec);
    assert forall k, f: string :: FieldPieces(n, k, f) == FieldPieces(m, k, f) by { StopPieces(m, i); }
    forall k | k in tools && k != i ensures IsBlock(n, k, tools[k], codec) {
      SameBlock(m, n, k, tools[k], codec);
    }
  }

  lemma StopPieces(m: Message, i: nat)
    ensures forall k, f: string :: FieldPieces(m.(stopped := m.stopped + {i}), k, f) == FieldPieces(m, k, f)
  {}

  lemma StoppedBlock(m: Message, i: nat, was: Json, block: Json, codec: Codec)
    requires BlockOwners(m) && i in m.starts && i !in m.stopped && IsBlock(m, i, was, codec)
    requires HasInput(m, i) ==> Input(m, i, codec).Some?
    requires block == if HasInput(m, i) then With(was, "input", Input(m, i, codec).value) else was
    ensures BlockOwners(m.(stopped := m.stopped + {i})) && IsBlock(m.(stopped := m.stopped + {i}), i, block, codec)
  {
    hide FieldPieces, Join, With;
    var n := m.(stopped := m.stopped + {i});
    StopPieces(m, i);
    forall f: string ensures At(block, f) == FieldOf(n, i, f, codec) {
      assert At(was, f) == FieldOf(m, i, f, codec);
    }
  }

  // When a message ends, the input of every block with argument fragments is parsed from all of them.
  lemma FinishedInputs(m: Message, tools: map<nat, Json>, buffers: map<nat, string>, codec: Codec, i: nat)
    requires BlocksMatch(m, tools, buffers, codec) && Finishable(m) && i in tools && HasInput(m, i)
    ensures codec.parse(Join(FieldPieces(m, i, "input"))) == Some(At(tools[i], "input"))
  {
    hide FieldPieces, Join;
    assert IsBlock(m, i, tools[i], codec);
    assert At(tools[i], "input") == FieldOf(m, i, "input", codec);
  }

  lemma FinishableIsEmpty(m: Message, tools: map<nat, Json>, buffers: map<nat, string>, codec: Codec)
    requires BlocksMatch(m, tools, buffers, codec)
    ensures Finishable(m) <==> At(m.body, "id").Str? && At(m.body, "stop_reason").Str? && buffers == map[]
  {
    hide FieldPieces, Join, IsBlock, BlockOwners, Input;
    if buffers != map[] {
      assert buffers.Keys != {};
      var i :| i in buffers.Keys;
    }
  }

  // Fragments once received are never lost, and none arrives for a stopped block.
  lemma StepExtends(m: Message, event: Json, codec: Codec)
    requires BlockStep(m, event, codec).Some?
    ensures var n := BlockStep(m, event, codec).value;
      && m.journal.sent <= n.journal.sent && m.stopped <= n.stopped
      && forall i, f :: i in m.stopped ==> FieldPieces(n, i, f) == FieldPieces(m, i, f)
  {
    hide Input, HasInput, FieldPieces, BlockFragments;
    var index := U64(At(event, "index"));
    if At(event, "type") == Str("content_block_delta") {
      var s := BlockFragments(index.value, m.starts[index.value], At(event, "delta")).value;
      FragmentsBelong(index.value, m.starts[index.value], At(event, "delta"));
      var n := m.(journal := LogAll(m.journal, s));
      forall i, f | i in m.stopped ensures FieldPieces(n, i, f) == FieldPieces(m, i, f) {
        OtherPieces(m, s, i, f);
      }
    } else {
      var n := BlockStep(m, event, codec).value;
      assert n.journal == m.journal;
      forall i, f ensures FieldPieces(n, i, f) == FieldPieces(m, i, f) { SameJournal(m, n, i, f); }
    }
  }

  lemma SameJournal(m: Message, n: Message, i: nat, f: string)
    requires m.journal == n.journal
    ensures FieldPieces(n, i, f) == FieldPieces(m, i, f)
  {}

  lemma {:induction false} OtherPieces(m: Message, s: seq<Sent>, i: nat, f: string)
    requires forall t <- s :: t.owner != Block(i, f)
    ensures FieldPieces(m.(journal := LogAll(m.journal, s)), i, f) == FieldPieces(m, i, f)
    decreases |s|
  {
    if s == [] {
      assert m.journal.sent + [] == m.journal.sent;
    } else {
      var before, last := s[..|s| - 1], s[|s| - 1];
      assert last in s && forall t <- before :: t in s;
      OtherPieces(m, before, i, f);
      assert m.journal.sent + s == m.journal.sent + before + [last];
      PiecesLog(m.journal.sent + before, last, Block(i, f));
    }
  }

  // All fragments of a delta belong to its block and are announced by the delta of their kind.
  lemma FragmentsBelong(i: nat, block: Json, delta: Json)
    requires BlockFragments(i, block, delta).Some?
    ensures forall s <- BlockFragments(i, block, delta).value ::
      s.owner.Block? && s.owner.index == i && s.owner.field in FIELDS && Announced(s)
  {}
}
